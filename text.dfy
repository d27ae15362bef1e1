/**
 * The string operations the extension filter relies on: str.lower() and
 * the split at the last '.' that str.rsplit('.', 1) performs.
 */
module Text {
  import opened Wrappers

  /** str.lower() on one character; only ASCII letters change. */
  function LowerChar(c: char): char
  {
    if 'A' <= c <= 'Z' then (c as int + 32) as char else c
  }

  /** str.lower() */
  function Lower(s: string): (r: string)
    ensures |r| == |s|
  {
    if s == [] then [] else [LowerChar(s[0])] + Lower(s[1..])
  }

  /** [x.lower() for x in xs] */
  function LowerAll(xs: seq<string>): (r: seq<string>)
    ensures |r| == |xs|
  {
    if xs == [] then [] else [Lower(xs[0])] + LowerAll(xs[1..])
  }

  /** The position of the last `c` in `s`, if there is one. */
  function LastIndexOf(s: string, c: char): (r: Option<nat>)
    ensures r.Some? ==> r.value < |s|
  {
    if s == [] then None
    else if s[|s| - 1] == c then Some(|s| - 1)
    else LastIndexOf(s[..|s| - 1], c)
  }

  /**
   * name.rsplit('.', 1)[1]: the text after the last '.'; None where that
   * indexing raises, because the name holds no '.'.
   */
  function ExtensionOf(name: string): Option<string>
  {
    match LastIndexOf(name, '.')
    case None => None
    case Some(i) => Some(name[i + 1..])
  }

  /** Lowering changes every character in place and keeps the length. */
  lemma {:induction false} LowerAt(s: string)
    ensures forall i :: 0 <= i < |s| ==> Lower(s)[i] == LowerChar(s[i])
  {
    if s != [] {
      LowerAt(s[1..]);
    }
  }

  /** Lowering a list lowers every element in place. */
  lemma {:induction false} LowerAllAt(xs: seq<string>)
    ensures forall i :: 0 <= i < |xs| ==> LowerAll(xs)[i] == Lower(xs[i])
  {
    if xs != [] {
      LowerAllAt(xs[1..]);
    }
  }

  /** LastIndexOf finds the last occurrence, and finds none only when there is none. */
  lemma {:induction false} LastIndexOfIsLast(s: string, c: char)
    ensures LastIndexOf(s, c).Some? ==> s[LastIndexOf(s, c).value] == c
    ensures LastIndexOf(s, c).Some? ==> forall j :: LastIndexOf(s, c).value < j < |s| ==> s[j] != c
    ensures LastIndexOf(s, c).None? <==> c !in s
  {
    if s != [] && s[|s| - 1] != c {
      var init := s[..|s| - 1];
      LastIndexOfIsLast(init, c);
      assert s == init + [s[|s| - 1]];
    }
  }

  /**
   * The extension is the text after the last '.', holds no '.' itself,
   * and is missing exactly when the name has no '.'.
   */
  lemma ExtensionOfIsAfterLastDot(name: string)
    ensures ExtensionOf(name).None? <==> '.' !in name
    ensures ExtensionOf(name).Some? ==>
              var ext := ExtensionOf(name).value;
              |ext| < |name| && name[|name| - |ext| - 1] == '.' &&
              ext == name[|name| - |ext|..] && '.' !in ext
  {
    LastIndexOfIsLast(name, '.');
    match LastIndexOf(name, '.')
    case None =>
    case Some(i) =>
      var ext := name[i + 1..];
      assert forall j :: 0 <= j < |ext| ==> ext[j] == name[i + 1 + j];
  }

  lemma LowerCharIdempotent(c: char)
    ensures LowerChar(LowerChar(c)) == LowerChar(c)
  {
  }

  /** Lowering twice is lowering once. */
  lemma LowerIdempotent(s: string)
    ensures Lower(Lower(s)) == Lower(s)
  {
    LowerAt(s);
    LowerAt(Lower(s));
    forall i | 0 <= i < |s| ensures Lower(Lower(s))[i] == Lower(s)[i] {
      LowerCharIdempotent(s[i]);
    }
  }

  /** Every entry of a lowered list is already lower-case. */
  lemma LowerAllIsLower(xs: seq<string>)
    ensures forall i :: 0 <= i < |xs| ==> Lower(LowerAll(xs)[i]) == LowerAll(xs)[i]
  {
    LowerAllAt(xs);
    forall i | 0 <= i < |xs| ensures Lower(LowerAll(xs)[i]) == LowerAll(xs)[i] {
      LowerIdempotent(xs[i]);
    }
  }

  /** Lowering commutes with taking a suffix. */
  lemma LowerSuffix(s: string, i: nat)
    requires i <= |s|
    ensures Lower(s[i..]) == Lower(s)[i..]
  {
    LowerAt(s);
    LowerAt(s[i..]);
  }

  /** '.' is not a letter: lowering never moves the last dot. */
  lemma {:induction false} LastIndexOfLower(s: string)
    ensures LastIndexOf(Lower(s), '.') == LastIndexOf(s, '.')
  {
    if s != [] {
      var n := |s| - 1;
      LowerAt(s);
      LowerAt(s[..n]);
      assert Lower(s)[..n] == Lower(s[..n]);
      assert (Lower(s)[n] == '.') == (s[n] == '.');
      LastIndexOfLower(s[..n]);
    }
  }

  /** The extension of a lowered name is the lowered extension. */
  lemma ExtensionOfLower(name: string)
    ensures ExtensionOf(Lower(name)) == match ExtensionOf(name)
                                        case None => None
                                        case Some(e) => Some(Lower(e))
  {
    LastIndexOfLower(name);
    match LastIndexOf(name, '.')
    case None =>
    case Some(i) => LowerSuffix(name, i + 1);
  }
}
