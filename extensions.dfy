/**
 * The allowed-extensions filter applied to every uploaded file when the
 * endpoint accepts files.
 */
module Extensions {
  import opened Wrappers
  import opened Values
  import opened Text
  import opened Keywords

  /** The characters of a string, each as a one-character string (iterating a Python str). */
  function Characters(s: string): seq<string>
  {
    seq(|s|, i requires 0 <= i < |s| => [s[i]])
  }

  /**
   * [ext.lower() for ext in options.get('allowed_extensions', [])]:
   * iterating a list yields its items, a string its characters, and any
   * other value raises a TypeError.
   */
  function AllowedExtensions(options: Options): (r: Result<seq<string>, Fault>)
    ensures var v := Get(options, "allowed_extensions", StrList([]));
            && (r.Failure? <==> !v.StrList? && !v.Str?)
            && (r.Failure? ==> r.error == NotIterable)
            && (r.Success? ==> |r.value| == if v.StrList? then |v.items| else |v.s|)
            && (v.StrList? ==> r.Success? && forall i :: 0 <= i < |v.items| ==> r.value[i] == Lower(v.items[i]))
            && (v.Str? ==> r.Success? && forall i :: 0 <= i < |v.s| ==> r.value[i] == [LowerChar(v.s[i])])
    ensures r.Success? ==> forall i :: 0 <= i < |r.value| ==> Lower(r.value[i]) == r.value[i]
  {
    match Get(options, "allowed_extensions", StrList([]))
    case StrList(items) =>
      LowerAllIsLower(items);
      LowerAllAt(items);
      Success(LowerAll(items))
    case Str(s) =>
      LowerAllIsLower(Characters(s));
      LowerAllAt(Characters(s));
      Success(LowerAll(Characters(s)))
    case _ => Failure(NotIterable)
  }

  /**
   * not_an_allowed_extension: an empty list allows everything; otherwise
   * the text after the last '.' must appear in the list. A name without
   * '.' makes the indexing raise.
   */
  function NotAnAllowedExtension(filename: string, allowed: seq<string>): (r: Result<bool, Fault>)
    ensures allowed == [] ==> r == Success(false)
    ensures r.Failure? <==> allowed != [] && '.' !in filename
    ensures r.Failure? ==> r.error == IndexOutOfRange
  {
    ExtensionOfIsAfterLastDot(filename);
    if allowed == [] then Success(false)
    else match ExtensionOf(filename)
      case None => Failure(IndexOutOfRange)
      case Some(ext) => Success(Lower(ext) !in allowed)
  }

  /**
   * The list is empty exactly when the option is missing, an empty list or
   * an empty string; then every file name passes, even one without '.'.
   */
  lemma UnrestrictedAllowsAll(options: Options, filename: string)
    ensures AllowedExtensions(options) == Success([]) <==>
              "allowed_extensions" !in options || options["allowed_extensions"] in {StrList([]), Str("")}
    ensures AllowedExtensions(options) == Success([]) ==>
              NotAnAllowedExtension(filename, AllowedExtensions(options).value) == Success(false)
  {
    var v := Get(options, "allowed_extensions", StrList([]));
    if v.Str? && v.s != [] {
      assert |Characters(v.s)| > 0;
    }
  }

  /**
   * With a non-empty configured list the filter rejects exactly the names
   * whose extension matches no configured entry, ignoring case on both
   * sides, and raises on names without an extension.
   */
  lemma {:induction false} FilterMatchesIgnoringCase(filename: string, configured: seq<string>)
    requires configured != []
    ensures '.' !in filename ==> NotAnAllowedExtension(filename, LowerAll(configured)) == Failure(IndexOutOfRange)
    ensures NotAnAllowedExtension(filename, LowerAll(configured))
              == match ExtensionOf(filename)
                 case None => Failure(IndexOutOfRange)
                 case Some(ext) => Success(forall x :: x in configured ==> Lower(x) != Lower(ext))
  {
    ExtensionOfIsAfterLastDot(filename);
    LowerAllAt(configured);
    if ExtensionOf(filename).Some? {
      var ext := ExtensionOf(filename).value;
      var allowed := LowerAll(configured);
      assert allowed != [];
      if Lower(ext) in allowed {
        var i :| 0 <= i < |allowed| && allowed[i] == Lower(ext);
        assert configured[i] in configured && Lower(configured[i]) == Lower(ext);
      } else {
        forall x | x in configured ensures Lower(x) != Lower(ext) {
          var i :| 0 <= i < |configured| && configured[i] == x;
          assert allowed[i] == Lower(x);
        }
      }
    }
  }

  /** Two file names that differ only in letter case are filtered alike. */
  lemma FilterIgnoresNameCase(name1: string, name2: string, configured: seq<string>)
    requires Lower(name1) == Lower(name2)
    ensures NotAnAllowedExtension(name1, LowerAll(configured)) == NotAnAllowedExtension(name2, LowerAll(configured))
  {
    ExtensionOfLower(name1);
    ExtensionOfLower(name2);
    match ExtensionOf(name1)
    case None =>
    case Some(e1) =>
      var e2 := ExtensionOf(name2).value;
      assert Some(Lower(e1)) == Some(Lower(e2));
  }
}
