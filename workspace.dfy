/**
 * The relay's workspace handlers (server/index.mjs, `/patch/preview` and
 * `/patch/apply`) over an abstract file system: a map from absolute path to
 * file content, and the set of absolute paths the operating system refuses
 * to write (a directory, a missing parent directory, no permission).
 *
 * The handler functions take the path check as a parameter `resolve`; the
 * relay's own check is `Paths.SafeResolve(root, _)`, which a `Disk` fixes
 * when it is built, and the lemmas about where writes can land assume it.
 */
module Workspace {
  import opened Js
  import opened Text
  import Paths

  /** One client patch `{ file, after }`. */
  datatype Patch = Patch(file: string, after: string)

  /** One preview entry `{ file, before, after }`. */
  datatype Entry = Entry(file: string, before: string, after: string)

  /** `{ ok: true, results }`, or status 400 with `{ error }`. */
  datatype PreviewResult = Previewed(results: seq<Entry>) | PreviewRejected(error: string)

  datatype ApplyError = OutsideAllowedPath | WriteFailed(path: string)

  /** `{ ok: true, applied }`, or status 400 with the error. */
  datatype ApplyResult = Applied(applied: seq<string>) | ApplyRejected(error: ApplyError)

  /** The file system after an apply run and the failure that stopped it, if any. */
  datatype ApplyRun = ApplyRun(files: map<string, string>, failure: Option<ApplyError>)

  function PreviewStatus(r: PreviewResult): int
  {
    if r.Previewed? then 200 else 400
  }

  function ApplyStatus(r: ApplyResult): int
  {
    if r.Applied? then 200 else 400
  }

  /** A path check: a client path to an absolute path or an error message. */
  type Resolver = string -> Result<string>

  /** `req.body?.patches || []`. */
  function Requested(patches: Option<seq<Patch>>): seq<Patch>
  {
    if patches.Some? then patches.value else []
  }

  /** `access` then `readFile`, with any failure read as "". */
  function ReadOrEmpty(files: map<string, string>, abs: string): string
  {
    if abs in files then files[abs] else ""
  }

  /** `patches.map(p => p.file)`. */
  function FilesOf(ps: seq<Patch>): (r: seq<string>)
    ensures |r| == |ps| && forall i :: 0 <= i < |ps| ==> r[i] == ps[i].file
  {
    seq(|ps|, i requires 0 <= i < |ps| => ps[i].file)
  }

  /** The preview handler's answer for `ps`, built patch by patch. */
  function PreviewOf(resolve: Resolver, files: map<string, string>, ps: seq<Patch>): PreviewResult
    decreases |ps|
  {
    if ps == [] then Previewed([])
    else
      var n := |ps| - 1;
      match PreviewOf(resolve, files, ps[..n])
      case PreviewRejected(e) => PreviewRejected(e)
      case Previewed(rs) =>
        match resolve(ps[n].file)
        case Err(e) => PreviewRejected(e)
        case Ok(abs) => Previewed(rs + [Entry(ps[n].file, ReadOrEmpty(files, abs), ps[n].after)])
  }

  /** Whether writing patch `p` fails, and how. */
  function WriteFailure(resolve: Resolver, unwritable: set<string>, p: Patch): Option<ApplyError>
  {
    match resolve(p.file)
    case Err(_) => Some(OutsideAllowedPath)
    case Ok(abs) => if abs in unwritable then Some(WriteFailed(abs)) else None
  }

  /** The apply loop for `ps`: each patch is resolved, then written, in order. */
  function ApplyOf(resolve: Resolver, files: map<string, string>, unwritable: set<string>, ps: seq<Patch>): ApplyRun
    decreases |ps|
  {
    if ps == [] then ApplyRun(files, None)
    else
      var n := |ps| - 1;
      var prev := ApplyOf(resolve, files, unwritable, ps[..n]);
      if prev.failure.Some? then prev
      else
        var fail := WriteFailure(resolve, unwritable, ps[n]);
        if fail.Some? then ApplyRun(prev.files, fail)
        else ApplyRun(prev.files[resolve(ps[n].file).value := ps[n].after], None)
  }

  /** The apply handler's answer once its loop has finished or stopped. */
  function ApplyReply(run: ApplyRun, ps: seq<Patch>): ApplyResult
  {
    if run.failure.None? then Applied(FilesOf(ps)) else ApplyRejected(run.failure.value)
  }

  /** `resolve` is the relay's own check for the project root `root`. */
  ghost predicate IsSafeResolve(resolve: Resolver, root: seq<string>)
  {
    forall rel :: resolve(rel) == Paths.SafeResolve(root, rel)
  }

  /** The project directory as the relay sees it. */
  class Disk {
    const root: seq<string>
    const resolve: Resolver
    const unwritable: set<string>
    var files: map<string, string>

    constructor (root: seq<string>, files: map<string, string>, unwritable: set<string>)
      ensures this.root == root && this.files == files && this.unwritable == unwritable
      ensures IsSafeResolve(resolve, root)
    {
      this.root := root;
      this.resolve := rel => Paths.SafeResolve(root, rel);
      this.files := files;
      this.unwritable := unwritable;
    }

    /** `/patch/preview`: reads only; its answer is `PreviewOf` of the current files. */
    method Preview(requested: Option<seq<Patch>>) returns (r: PreviewResult)
      ensures r == PreviewOf(resolve, files, Requested(requested))
    {
      var ps := Requested(requested);
      var results: seq<Entry> := [];
      var i := 0;
      while i < |ps|
        invariant 0 <= i <= |ps|
        invariant PreviewOf(resolve, files, ps[..i]) == Previewed(results)
      {
        var resolved := resolve(ps[i].file);
        assert ps[..i + 1][..i] == ps[..i];
        if resolved.Err? {
          PreviewRejectionSticks(resolve, files, ps, i + 1);
          return PreviewRejected(resolved.error);
        }
        var before := if resolved.value in files then files[resolved.value] else "";
        results := results + [Entry(ps[i].file, before, ps[i].after)];
        i := i + 1;
      }
      assert ps[..|ps|] == ps;
      r := Previewed(results);
    }

    /** `/patch/apply`: writes patch after patch and stops at the first failure. */
    method Apply(requested: Option<seq<Patch>>) returns (r: ApplyResult)
      modifies this
      ensures var ps := Requested(requested);
              var run := ApplyOf(resolve, old(files), unwritable, ps);
              files == run.files && r == ApplyReply(run, ps)
    {
      var ps := Requested(requested);
      var i := 0;
      while i < |ps|
        invariant 0 <= i <= |ps|
        invariant ApplyOf(resolve, old(files), unwritable, ps[..i]) == ApplyRun(files, None)
      {
        assert ps[..i + 1][..i] == ps[..i];
        var resolved := resolve(ps[i].file);
        if resolved.Err? {
          ApplyFailureSticks(resolve, old(files), unwritable, ps, i + 1);
          return ApplyRejected(OutsideAllowedPath);
        }
        if resolved.value in unwritable {
          ApplyFailureSticks(resolve, old(files), unwritable, ps, i + 1);
          return ApplyRejected(WriteFailed(resolved.value));
        }
        files := files[resolved.value := ps[i].after];
        i := i + 1;
      }
      assert ps[..|ps|] == ps;
      r := Applied(FilesOf(ps));
    }
  }

  // ---- preview ----

  lemma {:induction false} PreviewRejectionSticks(resolve: Resolver, files: map<string, string>, ps: seq<Patch>, k: nat)
    requires k <= |ps| && PreviewOf(resolve, files, ps[..k]).PreviewRejected?
    ensures PreviewOf(resolve, files, ps) == PreviewOf(resolve, files, ps[..k])
    decreases |ps| - k
  {
    if k < |ps| {
      assert ps[..k + 1][..k] == ps[..k];
      PreviewRejectionSticks(resolve, files, ps, k + 1);
    } else {
      assert ps[..k] == ps;
    }
  }

  /**
   * The preview contract: it succeeds exactly when every file resolves; then
   * it has one entry per patch, in order, copying `file` and `after` and
   * reading `before` from disk (missing files read as ""); otherwise its
   * error is the one the check gave for some patch of the batch.
   */
  lemma {:induction false} PreviewContract(resolve: Resolver, files: map<string, string>, ps: seq<Patch>)
    ensures var r := PreviewOf(resolve, files, ps);
            && (r.Previewed? <==> forall i :: 0 <= i < |ps| ==> resolve(ps[i].file).Ok?)
            && (r.PreviewRejected? ==> exists k :: 0 <= k < |ps| && resolve(ps[k].file) == Err(r.error))
            && (r.Previewed? ==>
                  && |r.results| == |ps|
                  && forall i :: 0 <= i < |ps| ==>
                       r.results[i] == Entry(ps[i].file,
                                             ReadOrEmpty(files, resolve(ps[i].file).value),
                                             ps[i].after))
    decreases |ps|
  {
    if ps != [] {
      var n := |ps| - 1;
      PreviewContract(resolve, files, ps[..n]);
      assert forall i :: 0 <= i < n ==> ps[..n][i] == ps[i];
    }
  }

  /** Previewing a file that does not exist shows it as empty. */
  lemma PreviewMissingFile(resolve: Resolver, files: map<string, string>, p: Patch)
    requires resolve(p.file).Ok? && resolve(p.file).value !in files
    ensures PreviewOf(resolve, files, [p]) == Previewed([Entry(p.file, "", p.after)])
  {
    assert [p][..0] == [];
  }

  /**
   * With the relay's own check, one escaping path anywhere in the batch
   * refuses the whole preview with status 400 and `outside-allowed-path`.
   */
  lemma PreviewEscapeRefusesBatch(root: seq<string>, resolve: Resolver, files: map<string, string>, ps: seq<Patch>, k: nat)
    requires IsSafeResolve(resolve, root)
    requires k < |ps| && resolve(ps[k].file).Err?
    ensures PreviewOf(resolve, files, ps) == PreviewRejected("outside-allowed-path")
    ensures PreviewStatus(PreviewOf(resolve, files, ps)) == 400
  {
    PreviewContract(resolve, files, ps);
    var r := PreviewOf(resolve, files, ps);
    var j :| 0 <= j < |ps| && resolve(ps[j].file) == Err(r.error);
    assert resolve(ps[j].file) == Paths.SafeResolve(root, ps[j].file);
  }

  // ---- apply ----

  lemma {:induction false} ApplyFailureSticks(resolve: Resolver, files: map<string, string>, unwritable: set<string>, ps: seq<Patch>, k: nat)
    requires k <= |ps| && ApplyOf(resolve, files, unwritable, ps[..k]).failure.Some?
    ensures ApplyOf(resolve, files, unwritable, ps) == ApplyOf(resolve, files, unwritable, ps[..k])
    decreases |ps| - k
  {
    if k < |ps| {
      assert ps[..k + 1][..k] == ps[..k];
      ApplyFailureSticks(resolve, files, unwritable, ps, k + 1);
    } else {
      assert ps[..k] == ps;
    }
  }

  /** The file a patch writes, when it writes one. */
  function Target(resolve: Resolver, p: Patch): Option<string>
  {
    var r := resolve(p.file);
    if r.Ok? then Some(r.value) else None
  }

  /** The reference for the resulting content: the `after` of the last patch aimed at `key`, if any. */
  function LastWrite(resolve: Resolver, ps: seq<Patch>, key: string): Option<string>
    decreases |ps|
  {
    if ps == [] then None
    else if Target(resolve, ps[|ps| - 1]) == Some(key) then Some(ps[|ps| - 1].after)
    else LastWrite(resolve, ps[..|ps| - 1], key)
  }

  /**
   * The apply contract when nothing fails: every patch passes, `applied`
   * lists the patch files in order, and each file holds the content of the
   * last patch aimed at it while untouched files keep theirs.
   */
  lemma {:induction false} ApplySucceeds(resolve: Resolver, files: map<string, string>, unwritable: set<string>, ps: seq<Patch>)
    ensures var run := ApplyOf(resolve, files, unwritable, ps);
            && (run.failure.None? <==> forall i :: 0 <= i < |ps| ==> WriteFailure(resolve, unwritable, ps[i]).None?)
            && (run.failure.None? ==>
                  && ApplyReply(run, ps) == Applied(FilesOf(ps))
                  && forall key ::
                       && (LastWrite(resolve, ps, key).Some? ==>
                             key in run.files && run.files[key] == LastWrite(resolve, ps, key).value)
                       && (LastWrite(resolve, ps, key).None? ==>
                             (key in run.files <==> key in files) && (key in files ==> run.files[key] == files[key])))
    decreases |ps|
  {
    if ps != [] {
      var n := |ps| - 1;
      ApplySucceeds(resolve, files, unwritable, ps[..n]);
      assert forall i :: 0 <= i < n ==> ps[..n][i] == ps[i];
    }
  }

  /**
   * With the relay's own check, every file a run adds or changes lies under
   * the safe prefix, whether the run succeeds or stops; no file is removed.
   */
  lemma {:induction false} ApplyStaysUnderPrefix(root: seq<string>, resolve: Resolver, files: map<string, string>, unwritable: set<string>, ps: seq<Patch>)
    requires IsSafeResolve(resolve, root)
    ensures var out := ApplyOf(resolve, files, unwritable, ps).files;
            && files.Keys <= out.Keys
            && forall key :: key in out && (key !in files || out[key] != files[key])
                 ==> StartsWith(key, Paths.SafePrefix(root))
    decreases |ps|
  {
    if ps != [] {
      var n := |ps| - 1;
      ApplyStaysUnderPrefix(root, resolve, files, unwritable, ps[..n]);
      assert resolve(ps[n].file) == Paths.SafeResolve(root, ps[n].file);
    }
  }

  /**
   * As the loop is written, a failure at patch `k` leaves patches
   * `0..k-1` written: the run equals the run of the first `k` patches,
   * stopped with patch `k`'s failure.
   */
  lemma ApplyStopsAtFirstFailure(resolve: Resolver, files: map<string, string>, unwritable: set<string>, ps: seq<Patch>, k: nat)
    requires k < |ps|
    requires forall j :: 0 <= j < k ==> WriteFailure(resolve, unwritable, ps[j]).None?
    requires WriteFailure(resolve, unwritable, ps[k]).Some?
    ensures var run := ApplyOf(resolve, files, unwritable, ps);
            && run.files == ApplyOf(resolve, files, unwritable, ps[..k]).files
            && run.failure == WriteFailure(resolve, unwritable, ps[k])
            && ApplyStatus(ApplyReply(run, ps)) == 400
  {
    ApplySucceeds(resolve, files, unwritable, ps[..k]);
    assert forall j :: 0 <= j < k ==> ps[..k][j] == ps[j];
    assert ps[..k + 1][..k] == ps[..k];
    ApplyFailureSticks(resolve, files, unwritable, ps, k + 1);
  }

  /** With two patches to one file, the second wins. */
  lemma LastPatchWins(resolve: Resolver, files: map<string, string>, unwritable: set<string>, f: string, x: string, y: string)
    requires WriteFailure(resolve, unwritable, Patch(f, x)).None?
    ensures var run := ApplyOf(resolve, files, unwritable, [Patch(f, x), Patch(f, y)]);
            run.failure.None? && run.files[resolve(f).value] == y
  {
    var ps := [Patch(f, x), Patch(f, y)];
    assert ps[..1] == [Patch(f, x)];
    assert [Patch(f, x)][..0] == [];
    var abs := resolve(f).value;
    assert ApplyOf(resolve, files, unwritable, ps[..1]) == ApplyRun(files[abs := x], None);
    assert WriteFailure(resolve, unwritable, Patch(f, y)).None?;
  }

  /** After applying `{ file: f, after: x }`, previewing `f` shows `x` as the current content. */
  lemma WriteThenRead(resolve: Resolver, files: map<string, string>, unwritable: set<string>, f: string, x: string, y: string)
    requires ApplyOf(resolve, files, unwritable, [Patch(f, x)]).failure.None?
    ensures var after := ApplyOf(resolve, files, unwritable, [Patch(f, x)]).files;
            PreviewOf(resolve, after, [Patch(f, y)]) == Previewed([Entry(f, x, y)])
  {
    assert [Patch(f, x)][..0] == [];
    assert [Patch(f, y)][..0] == [];
  }

  /**
   * With the relay's own check, a batch whose first patch is valid and whose
   * second escapes is refused with status 400, yet the first file has
   * already been written.
   */
  lemma EscapeAfterWriteKeepsFirstWrite(root: seq<string>, resolve: Resolver, files: map<string, string>, name: string, x: string, y: string)
    requires IsSafeResolve(resolve, root)
    requires Paths.AllNames(root) && Paths.IsName(name)
    ensures var ps := [Patch("src/" + name, x), Patch("../" + name, y)];
            var run := ApplyOf(resolve, files, {}, ps);
            && ApplyStatus(ApplyReply(run, ps)) == 400
            && run.files == files[Paths.Render(root + ["src", name]) := x]
  {
    var ps := [Patch("src/" + name, x), Patch("../" + name, y)];
    assert resolve("src/" + name) == Paths.SafeResolve(root, "src/" + name);
    assert resolve("../" + name) == Paths.SafeResolve(root, "../" + name);
    Paths.SrcFileAccepted(root, name);
    Paths.ParentRejected(root, name);
    ApplyStopsAtFirstFailure(resolve, files, {}, ps, 1);
    assert ps[..1] == [Patch("src/" + name, x)];
    assert ps[..1][..0] == [];
  }
}
