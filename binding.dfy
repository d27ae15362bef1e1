/**
 * Form/file mode of the service: the flat argument map built from
 * request.values and request.files, and the request-scoped temporary
 * directory the accepted uploads are saved into.
 */
module Binding {
  import opened Wrappers
  import opened Values
  import opened Keywords
  import opened Extensions

  /**
   * The temporary-file area of the host: every live temporary directory
   * with the names of the files saved in it.
   */
  class TempFs {
    var dirs: map<Dir, set<string>>
    /** The name the next mkdtemp hands out. */
    var next: Dir

    ghost predicate Valid()
      reads this
    {
      forall d :: d in dirs ==> d < next
    }

    constructor ()
      ensures Valid() && dirs == map[]
    {
      dirs, next := map[], 0;
    }

    /** tempfile.mkdtemp(): a new, empty directory. */
    method MkdTemp() returns (d: Dir)
      requires Valid()
      modifies this
      ensures Valid()
      ensures d == old(next) && d !in old(dirs) && next == old(next) + 1
      ensures dirs == old(dirs)[d := {}]
    {
      d := next;
      dirs, next := dirs[d := {}], next + 1;
    }

    /** file.save(str(path)) into an existing directory. */
    method Save(p: Path)
      requires Valid() && p.dir in dirs
      modifies this
      ensures Valid() && next == old(next)
      ensures dirs == old(dirs)[p.dir := old(dirs)[p.dir] + {p.name}]
    {
      dirs := dirs[p.dir := dirs[p.dir] + {p.name}];
    }

    /** rmtree(dir): removes the directory and everything saved in it. */
    method RmTree(d: Dir)
      requires Valid() && d in dirs
      modifies this
      ensures Valid() && next == old(next)
      ensures dirs == old(dirs) - {d}
    {
      dirs := dirs - {d};
    }
  }

  /** The uploads the loop accepts, in order, and whether the filter raised. */
  datatype Scan = Scan(kept: seq<Upload>, raised: bool)

  /**
   * The walk over request.files.items(): files whose extension is not
   * allowed are skipped, the others kept; the walk stops at the first file
   * for which the filter raises.
   */
  function ScanUploads(files: seq<Upload>, allowed: seq<string>): (r: Scan)
    ensures |r.kept| <= |files|
    ensures r.raised ==> allowed != []
  {
    if files == [] then Scan([], false)
    else
      var u := files[|files| - 1];
      ScanStep(ScanUploads(files[..|files| - 1], allowed), u, NotAnAllowedExtension(u.filename, allowed))
  }

  /**
   * One turn of the loop, given what not_an_allowed_extension says of the
   * upload: after a raise nothing more happens.
   */
  function ScanStep(s: Scan, u: Upload, notAllowed: Result<bool, Fault>): Scan
  {
    if s.raised then s
    else match notAllowed
      case Failure(_) => Scan(s.kept, true)
      case Success(skip) => if skip then s else Scan(s.kept + [u], false)
  }

  /** {k: v for k, v in request.values.items()} */
  function FormValues(values: map<string, string>): map<string, Arg>
  {
    map k | k in values :: Text(values[k])
  }

  /** form_params[arg_name] = path, for each kept upload in turn. */
  function AddFiles(params: map<string, Arg>, kept: seq<Upload>, dir: Dir, secure: string -> string): map<string, Arg>
  {
    if kept == [] then params
    else
      var u := kept[|kept| - 1];
      AddFiles(params, kept[..|kept| - 1], dir, secure)[u.field := File(Path(dir, secure(u.filename)))]
  }

  /** The names the kept uploads are saved under, inside the request's directory. */
  function SavedNames(kept: seq<Upload>, secure: string -> string): set<string>
  {
    if kept == [] then {}
    else SavedNames(kept[..|kept| - 1], secure) + {secure(kept[|kept| - 1].filename)}
  }

  /** The argument map, the temporary directory (if created), the saved files and the exception raised. */
  datatype FormBinding = FormBinding(args: map<string, Arg>, dir: Option<Dir>, saved: set<string>, fault: Option<Fault>)

  /**
   * The form branch up to the handler call, for a request whose
   * mkdtemp, if called, yields `d`.
   */
  function BindForm(options: Options, req: Request, secure: string -> string, d: Dir): (r: FormBinding)
    ensures r.dir.Some? ==> r.dir == Some(d)
    ensures r.dir.None? <==> r.saved == {}
    ensures r.fault.Some? ==> r.fault.value == NotIterable || r.fault.value == IndexOutOfRange
    ensures req.values.Keys <= r.args.Keys
  {
    var params := FormValues(req.values);
    if !Truthy(Get(options, "accept_files", Bool(false))) then FormBinding(params, None, {}, None)
    else match AllowedExtensions(options)
      case Failure(f) => FormBinding(params, None, {}, Some(f))
      case Success(allowed) =>
        var scan := ScanUploads(req.files, allowed);
        SavedNamesEmpty(scan.kept, secure);
        AddFilesKeys(params, scan.kept, d, secure);
        FormBinding(AddFiles(params, scan.kept, d, secure),
                    if scan.kept == [] then None else Some(d),
                    SavedNames(scan.kept, secure),
                    if scan.raised then Some(IndexOutOfRange) else None)
  }

  /** Once the walk has raised, the files after that point change nothing. */
  lemma {:induction false} ScanStopsAtFault(files: seq<Upload>, allowed: seq<string>, i: nat)
    requires i <= |files| && ScanUploads(files[..i], allowed).raised
    ensures ScanUploads(files, allowed) == ScanUploads(files[..i], allowed)
  {
    if i < |files| {
      assert files[..|files| - 1][..i] == files[..i];
      ScanStopsAtFault(files[..|files| - 1], allowed, i);
    } else {
      assert files[..i] == files;
    }
  }

  /** One more turn of the loop after the uploads `files`. */
  lemma ScanSnoc(files: seq<Upload>, u: Upload, allowed: seq<string>)
    ensures ScanUploads(files + [u], allowed)
            == ScanStep(ScanUploads(files, allowed), u, NotAnAllowedExtension(u.filename, allowed))
  {
    assert (files + [u])[..|files|] == files;
  }

  /** One more turn of the loop over a longer prefix. */
  lemma ScanPrefixStep(files: seq<Upload>, allowed: seq<string>, i: nat)
    requires i < |files|
    ensures ScanUploads(files[..i + 1], allowed)
            == ScanStep(ScanUploads(files[..i], allowed), files[i], NotAnAllowedExtension(files[i].filename, allowed))
  {
    assert files[..i + 1][..i] == files[..i];
  }

  /** The turn for upload `i` when the walk has not raised so far: it skips, keeps or raises. */
  lemma ScanTurn(files: seq<Upload>, allowed: seq<string>, i: nat, kept: seq<Upload>)
    requires i < |files| && ScanUploads(files[..i], allowed) == Scan(kept, false)
    ensures NotAnAllowedExtension(files[i].filename, allowed) == Success(true) ==>
              ScanUploads(files[..i + 1], allowed) == Scan(kept, false)
    ensures NotAnAllowedExtension(files[i].filename, allowed) == Success(false) ==>
              ScanUploads(files[..i + 1], allowed) == Scan(kept + [files[i]], false)
    ensures NotAnAllowedExtension(files[i].filename, allowed).Failure? ==>
              ScanUploads(files, allowed) == Scan(kept, true)
  {
    ScanPrefixStep(files, allowed, i);
    if NotAnAllowedExtension(files[i].filename, allowed).Failure? {
      ScanStopsAtFault(files, allowed, i + 1);
    }
  }

  lemma AddFilesSnoc(params: map<string, Arg>, kept: seq<Upload>, u: Upload, dir: Dir, secure: string -> string)
    ensures AddFiles(params, kept + [u], dir, secure)
            == AddFiles(params, kept, dir, secure)[u.field := File(Path(dir, secure(u.filename)))]
  {
    assert (kept + [u])[..|kept|] == kept;
  }

  lemma SavedNamesSnoc(kept: seq<Upload>, u: Upload, secure: string -> string)
    ensures SavedNames(kept + [u], secure) == SavedNames(kept, secure) + {secure(u.filename)}
  {
    assert (kept + [u])[..|kept|] == kept;
  }

  /** Something is saved exactly when an upload is kept. */
  lemma {:induction false} SavedNamesEmpty(kept: seq<Upload>, secure: string -> string)
    ensures SavedNames(kept, secure) == {} <==> kept == []
  {
    if kept != [] {
      assert secure(kept[|kept| - 1].filename) in SavedNames(kept, secure);
    }
  }

  /**
   * Builds form_params: the form values, then the accepted uploads when
   * accept_files is truthy.
   */
  method BuildFormParams(options: Options, req: Request, secure: string -> string, fs: TempFs)
    returns (params: map<string, Arg>, dir: Option<Dir>, fault: Option<Fault>)
    requires fs.Valid()
    modifies fs
    ensures fs.Valid()
    ensures var b := BindForm(options, req, secure, old(fs.next));
            params == b.args && dir == b.dir && fault == b.fault &&
            fs.dirs == (if dir.Some? then old(fs.dirs)[dir.value := b.saved] else old(fs.dirs)) &&
            fs.next == old(fs.next) + (if dir.Some? then 1 else 0)
  {
    params := FormValues(req.values);
    dir, fault := None, None;
    if !Truthy(Get(options, "accept_files", Bool(false))) {
      return;
    }
    var allowedExtensions := AllowedExtensions(options);
    if allowedExtensions.Failure? {
      fault := Some(allowedExtensions.error);
      return;
    }
    params, dir, fault := SaveAcceptedUploads(params, req.files, allowedExtensions.value, secure, fs);
  }

  /**
   * What the loop over the uploads has built after keeping `kept`: the
   * argument map, the directory (made on the first kept upload, numbered
   * `d`), and the files saved in it, relative to the directories `start`
   * that existed before the loop.
   */
  ghost predicate Progress(form: map<string, Arg>, kept: seq<Upload>, d: Dir, secure: string -> string,
                           start: map<Dir, set<string>>, params: map<string, Arg>, dir: Option<Dir>, fs: TempFs)
    reads fs
  {
    && fs.Valid()
    && params == AddFiles(form, kept, d, secure)
    && (dir.Some? <==> kept != [])
    && (dir.None? ==> fs.next == d && fs.dirs == start)
    && (dir.Some? ==> dir.value == d && fs.next == d + 1 && fs.dirs == start[d := SavedNames(kept, secure)])
  }

  /**
   * The body of the loop for an accepted upload: creates the temporary
   * directory unless the request already has one, saves the file in it
   * under its sanitised name and sets the upload's field to that path.
   */
  method KeepUpload(form: map<string, Arg>, ghost kept: seq<Upload>, ghost d: Dir, secure: string -> string,
                    ghost start: map<Dir, set<string>>, params: map<string, Arg>, dir: Option<Dir>,
                    file: Upload, fs: TempFs)
    returns (params': map<string, Arg>, dir': Option<Dir>)
    requires Progress(form, kept, d, secure, start, params, dir, fs)
    modifies fs
    ensures Progress(form, kept + [file], d, secure, start, params', dir', fs)
  {
    var path: Path;
    if dir.None? {
      var dd := fs.MkdTemp();
      path := Path(dd, secure(file.filename));
      fs.Save(path);
      assert {} + {path.name} == {path.name};
    } else {
      path := Path(dir.value, secure(file.filename));
      fs.Save(path);
    }
    SavedNamesSnoc(kept, file, secure);
    if dir.None? {
      assert SavedNames(kept + [file], secure) == {path.name};
    }
    AddFilesSnoc(form, kept, file, d, secure);
    dir' := Some(path.dir);
    params' := params[file.field := File(path)];
  }

  /**
   * The loop over request.files.items(): each upload with an allowed
   * extension is saved into the temporary directory, created on the first
   * such upload, and its field set to the saved path.
   */
  method SaveAcceptedUploads(form: map<string, Arg>, files: seq<Upload>, allowed: seq<string>,
                             secure: string -> string, fs: TempFs)
    returns (params: map<string, Arg>, dir: Option<Dir>, fault: Option<Fault>)
    requires fs.Valid()
    modifies fs
    ensures fs.Valid()
    ensures var s := ScanUploads(files, allowed);
            && params == AddFiles(form, s.kept, old(fs.next), secure)
            && dir == (if s.kept == [] then None else Some(old(fs.next)))
            && fault == (if s.raised then Some(IndexOutOfRange) else None)
    ensures dir.None? ==> fs.dirs == old(fs.dirs) && fs.next == old(fs.next)
    ensures dir.Some? ==> fs.next == old(fs.next) + 1
    ensures dir.Some? ==> fs.dirs == old(fs.dirs)[dir.value := SavedNames(ScanUploads(files, allowed).kept, secure)]
  {
    params, dir, fault := form, None, None;
    ghost var d, start := fs.next, fs.dirs;
    ghost var kept: seq<Upload> := [];
    var i := 0;
    while i < |files|
      invariant 0 <= i <= |files|
      invariant ScanUploads(files[..i], allowed) == Scan(kept, false)
      invariant Progress(form, kept, d, secure, start, params, dir, fs)
    {
      var file := files[i];
      ScanTurn(files, allowed, i, kept);
      var notAllowed := NotAnAllowedExtension(file.filename, allowed);
      if notAllowed.Failure? {
        fault := Some(notAllowed.error);
        return;
      }
      if !notAllowed.value {
        params, dir := KeepUpload(form, kept, d, secure, start, params, dir, file, fs);
        kept := kept + [file];
      }
      i := i + 1;
    }
    assert files[..i] == files;
  }

  /**
   * Every kept upload comes from the request and has an allowed
   * extension; when the walk did not raise, every allowed upload is kept,
   * and it raises only for an upload the filter raises on.
   */
  lemma {:induction false} ScanSoundAndComplete(files: seq<Upload>, allowed: seq<string>)
    ensures var s := ScanUploads(files, allowed);
            forall u :: u in s.kept ==> u in files && NotAnAllowedExtension(u.filename, allowed) == Success(false)
    ensures var s := ScanUploads(files, allowed);
            !s.raised ==> forall u :: u in files ==>
                            && NotAnAllowedExtension(u.filename, allowed).Success?
                            && (NotAnAllowedExtension(u.filename, allowed) == Success(false) ==> u in s.kept)
    ensures ScanUploads(files, allowed).raised ==>
              exists u :: u in files && NotAnAllowedExtension(u.filename, allowed).Failure?
  {
    if files != [] {
      var init, last := files[..|files| - 1], files[|files| - 1];
      ScanSoundAndComplete(init, allowed);
      assert files == init + [last];
      ScanSnoc(init, last, allowed);
      var s := ScanUploads(init, allowed);
      if s.raised {
        var u :| u in init && NotAnAllowedExtension(u.filename, allowed).Failure?;
        assert u in files;
      } else if NotAnAllowedExtension(last.filename, allowed).Failure? {
        assert ScanUploads(files, allowed) == Scan(s.kept, true);
      } else if NotAnAllowedExtension(last.filename, allowed).value {
        assert ScanUploads(files, allowed) == s;
      } else {
        assert ScanUploads(files, allowed) == Scan(s.kept + [last], false);
      }
    }
  }

  /** With no extension list configured every upload is kept and the walk never raises. */
  lemma {:induction false} ScanUnrestricted(files: seq<Upload>)
    ensures ScanUploads(files, []) == Scan(files, false)
  {
    if files != [] {
      var init, last := files[..|files| - 1], files[|files| - 1];
      assert files == init + [last];
      ScanUnrestricted(init);
      ScanSnoc(init, last, []);
    }
  }

  /** A key no kept upload uses keeps its form value (or stays absent). */
  lemma {:induction false} AddFilesKeepsOtherKeys(params: map<string, Arg>, kept: seq<Upload>, dir: Dir,
                                                  secure: string -> string, k: string)
    requires forall u :: u in kept ==> u.field != k
    ensures k in AddFiles(params, kept, dir, secure) <==> k in params
    ensures k in params ==> AddFiles(params, kept, dir, secure)[k] == params[k]
  {
    if kept != [] {
      AddFilesKeepsOtherKeys(params, kept[..|kept| - 1], dir, secure, k);
    }
  }

  /**
   * The field of a kept upload maps to that upload's saved path when no
   * later kept upload uses the same field: uploads override form values
   * and the last upload for a field wins.
   */
  lemma {:induction false} AddFilesLastUploadWins(params: map<string, Arg>, kept: seq<Upload>, dir: Dir,
                                                  secure: string -> string, j: nat)
    requires j < |kept|
    requires forall j' :: j < j' < |kept| ==> kept[j'].field != kept[j].field
    ensures kept[j].field in AddFiles(params, kept, dir, secure)
    ensures AddFiles(params, kept, dir, secure)[kept[j].field] == File(Path(dir, secure(kept[j].filename)))
  {
    if j < |kept| - 1 {
      AddFilesLastUploadWins(params, kept[..|kept| - 1], dir, secure, j);
    }
  }

  /** The argument map holds exactly the form keys and the fields of the kept uploads. */
  lemma {:induction false} AddFilesKeys(params: map<string, Arg>, kept: seq<Upload>, dir: Dir, secure: string -> string)
    ensures AddFiles(params, kept, dir, secure).Keys == params.Keys + set u | u in kept :: u.field
  {
    if kept != [] {
      var init := kept[..|kept| - 1];
      AddFilesKeys(params, init, dir, secure);
      assert kept == init + [kept[|kept| - 1]];
      assert (set u | u in kept :: u.field) == (set u | u in init :: u.field) + {kept[|kept| - 1].field};
    }
  }

  /**
   * Unless accept_files is truthy the argument map is the form values,
   * unchanged: files are ignored and no directory is created.
   */
  lemma FilesIgnoredUnlessAccepted(options: Options, req: Request, secure: string -> string, d: Dir)
    requires !Truthy(Get(options, "accept_files", Bool(false)))
    ensures var b := BindForm(options, req, secure, d);
            b.dir == None && b.saved == {} && b.fault == None &&
            b.args.Keys == req.values.Keys &&
            forall k :: k in req.values ==> b.args[k] == Text(req.values[k])
  {
  }

  /**
   * The temporary directory exists exactly when at least one upload was
   * accepted, and every accepted upload was saved inside it.
   */
  lemma DirectoryOnlyForAcceptedUploads(options: Options, req: Request, secure: string -> string, d: Dir)
    ensures var b := BindForm(options, req, secure, d);
            b.dir.Some? <==> Truthy(Get(options, "accept_files", Bool(false))) &&
                             AllowedExtensions(options).Success? &&
                             ScanUploads(req.files, AllowedExtensions(options).value).kept != []
    ensures var b := BindForm(options, req, secure, d);
            b.dir.None? <==> b.saved == {}
  {
    if Truthy(Get(options, "accept_files", Bool(false))) && AllowedExtensions(options).Success? {
      SavedNamesEmpty(ScanUploads(req.files, AllowedExtensions(options).value).kept, secure);
    }
  }
}
