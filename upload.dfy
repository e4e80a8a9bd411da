/** The upload route (app/api/upload/route.ts): `POST` uploads without
    overwriting, `PUT` uploads with an optional overwrite flag. Both validate
    the form, check the target with `isWriteAllowed`, create the target
    directory and then run one loop over the files, producing one result per
    file. The disk is a map from paths to contents; `path.resolve` and
    `path.join` are opaque functions; the failures of `formData()`, `mkdir`
    and `writeFile` are inputs. */
module Upload {
  import opened Common
  import Config

  datatype UploadFile = UploadFile(name: string, content: string)

  /** The form fields the handlers read. */
  datatype Form = Form(files: seq<UploadFile>, targetPath: Option<string>, overwrite: Option<string>)

  /** The request body: a form, or one that `formData()` rejects. */
  datatype Request = Parsed(form: Form) | Unparsable(message: string)

  /** The opaque path functions. */
  datatype PathOps = PathOps(resolve: string -> string, join: (string, string) -> string)

  /** The failures the disk reports: `mkdir` of the target, and `writeFile`
      at given paths (with the error's message). */
  datatype DiskFaults = DiskFaults(mkdirError: Option<string>, writeErrors: map<string, string>)

  /** One entry of `results`. `overwritten` is only present on a `PUT`
      success. */
  datatype FileResult = FileResult(fileName: string, success: bool, error: Option<string>, path: Option<string>, overwritten: Option<bool>)

  datatype Response =
    | BadRequest(error: string)
    | Forbidden(error: string)
    | ServerError(error: string)
    | Uploaded(uploaded: nat, failed: nat, results: seq<FileResult>)

  /** Which handler runs. */
  datatype Verb = Post | Put

  const TargetRequired := "Target path is required"
  const NoFiles := "No files provided"
  const AccessDenied := "Access denied: Cannot upload to this directory"
  const InvalidName := "Invalid file name"
  const AlreadyExists := "File already exists"
  const UnknownName := "unknown"

  /** What the loop body needs besides the file: the resolved target, the
      existence check (on for `POST` and for `PUT` without overwrite), the
      `overwritten` value of a success, and the oracles. */
  datatype Ctx = Ctx(dir: string, check: bool, flag: Option<bool>, ops: PathOps, faults: DiskFaults)

  /** The results and the disk as the loop leaves them. */
  datatype Batch = Batch(results: seq<FileResult>, disk: map<string, string>)

  /** The result the loop pushes for one file, given the disk it meets: a
      nameless file fails without a write; an existing path fails when the
      existence check is on; a write either fails with its error or
      succeeds. */
  function Outcome(disk: map<string, string>, f: UploadFile, ctx: Ctx): (r: FileResult)
    ensures f.name == "" ==> r == FileResult(UnknownName, false, Some(InvalidName), None, None)
    ensures f.name != "" ==> r.fileName == f.name
    ensures r.success <==> f.name != "" && !(ctx.check && ctx.ops.join(ctx.dir, f.name) in disk)
                           && ctx.ops.join(ctx.dir, f.name) !in ctx.faults.writeErrors
    ensures r.success ==> r.path == Some(ctx.ops.join(ctx.dir, f.name)) && r.overwritten == ctx.flag && r.error.None?
    ensures f.name != "" && ctx.check && ctx.ops.join(ctx.dir, f.name) in disk ==>
      r == FileResult(f.name, false, Some(AlreadyExists), None, None)
  {
    if f.name == "" then FileResult(UnknownName, false, Some(InvalidName), None, None)
    else
      var p := ctx.ops.join(ctx.dir, f.name);
      if ctx.check && p in disk then FileResult(f.name, false, Some(AlreadyExists), None, None)
      else if p in ctx.faults.writeErrors then FileResult(f.name, false, Some(ctx.faults.writeErrors[p]), None, None)
      else FileResult(f.name, true, None, Some(p), ctx.flag)
  }

  /** The disk after one file: only a success stores, at the file's path. */
  function Written(disk: map<string, string>, f: UploadFile, ctx: Ctx): (d: map<string, string>)
    ensures Outcome(disk, f, ctx).success ==> d == disk[ctx.ops.join(ctx.dir, f.name) := f.content]
    ensures !Outcome(disk, f, ctx).success ==> d == disk
  {
    if Outcome(disk, f, ctx).success then disk[ctx.ops.join(ctx.dir, f.name) := f.content] else disk
  }

  function Step(b: Batch, f: UploadFile, ctx: Ctx): Batch
  {
    Batch(b.results + [Outcome(b.disk, f, ctx)], Written(b.disk, f, ctx))
  }

  /** The loop continued from a batch state over more files. */
  function RunFrom(b: Batch, files: seq<UploadFile>, ctx: Ctx): (r: Batch)
    ensures b.results <= r.results && |r.results| == |b.results| + |files|
    decreases |files|
  {
    if files == [] then b else Step(RunFrom(b, files[..|files| - 1], ctx), files[|files| - 1], ctx)
  }

  /** The loop over `files`, from the disk `disk`. */
  function RunBatch(disk: map<string, string>, files: seq<UploadFile>, ctx: Ctx): (r: Batch)
    ensures |r.results| == |files|
  {
    RunFrom(Batch([], disk), files, ctx)
  }

  /** `results.filter(r => r.success).length`. */
  function CountSuccess(rs: seq<FileResult>): (n: nat)
    ensures n <= |rs|
  {
    if rs == [] then 0 else CountSuccess(rs[..|rs| - 1]) + (if rs[|rs| - 1].success then 1 else 0)
  }

  /** `results.filter(r => !r.success).length`. */
  function CountFailure(rs: seq<FileResult>): (n: nat)
    ensures n <= |rs|
  {
    if rs == [] then 0 else CountFailure(rs[..|rs| - 1]) + (if rs[|rs| - 1].success then 0 else 1)
  }

  /** The whole handler: the response and the disk afterwards. */
  function Handle(verb: Verb, disk: map<string, string>, req: Request, host: Config.Host, ops: PathOps, faults: DiskFaults): (Response, map<string, string>)
  {
    if req.Unparsable? then (BadRequest("Invalid request: " + req.message), disk)
    else
      var form := req.form;
      if form.targetPath.None? || form.targetPath.value == "" then (BadRequest(TargetRequired), disk)
      else if form.files == [] then (BadRequest(NoFiles), disk)
      else
        var dir := ops.resolve(form.targetPath.value);
        if !Config.IsWriteAllowed(host, ops.resolve, dir) then (Forbidden(AccessDenied), disk)
        else if faults.mkdirError.Some? then (ServerError("Upload failed: " + faults.mkdirError.value), disk)
        else
          var overwrite := verb == Put && form.overwrite == Some("true");
          var b := RunBatch(disk, form.files, Ctx(dir, !overwrite, if verb == Put then Some(overwrite) else None, ops, faults));
          (Uploaded(CountSuccess(b.results), CountFailure(b.results), b.results), b.disk)
  }

  // ---------------------------------------------------------------------
  // Properties of the loop.

  /** Running over a concatenation is running over the parts in turn. */
  lemma {:induction false} RunFromConcat(b: Batch, xs: seq<UploadFile>, ys: seq<UploadFile>, ctx: Ctx)
    ensures RunFrom(b, xs + ys, ctx) == RunFrom(RunFrom(b, xs, ctx), ys, ctx)
    decreases |ys|
  {
    if ys == [] {
      assert xs + ys == xs;
    } else {
      assert (xs + ys)[..|xs + ys| - 1] == xs + ys[..|ys| - 1];
      RunFromConcat(b, xs, ys[..|ys| - 1], ctx);
    }
  }

  /** The `i`-th result is what file `i` met: the disk the first `i` files
      left behind. */
  lemma ResultAt(disk: map<string, string>, files: seq<UploadFile>, ctx: Ctx, i: nat)
    requires i < |files|
    ensures RunBatch(disk, files, ctx).results[i] == Outcome(RunBatch(disk, files[..i], ctx).disk, files[i], ctx)
  {
    var start := Batch([], disk);
    assert files == files[..i + 1] + files[i + 1..];
    RunFromConcat(start, files[..i + 1], files[i + 1..], ctx);
    assert files[..i + 1][..i] == files[..i];
  }

  /** A path stored on the disk stays stored while the loop goes on. */
  lemma {:induction false} RunFromKeepsPaths(b: Batch, files: seq<UploadFile>, ctx: Ctx)
    ensures b.disk.Keys <= RunFrom(b, files, ctx).disk.Keys
    decreases |files|
  {
    if files != [] {
      RunFromKeepsPaths(b, files[..|files| - 1], ctx);
    }
  }

  /** One result per file, in input order, each naming its file (`unknown`
      for a nameless one, which always fails as `Invalid file name`); a
      success reports the file's path and the `overwritten` value. */
  lemma BatchResults(disk: map<string, string>, files: seq<UploadFile>, ctx: Ctx, i: nat)
    requires i < |files|
    ensures var r := RunBatch(disk, files, ctx).results[i];
      && (files[i].name == "" ==> r == FileResult(UnknownName, false, Some(InvalidName), None, None))
      && (files[i].name != "" ==> r.fileName == files[i].name)
      && (r.success ==> r.path == Some(ctx.ops.join(ctx.dir, files[i].name)) && r.overwritten == ctx.flag)
  {
    ResultAt(disk, files, ctx, i);
  }

  /** The loop never removes a path, and it changes only the paths of named
      files it was given. */
  lemma {:induction false} BatchFrame(disk: map<string, string>, files: seq<UploadFile>, ctx: Ctx, p: string)
    requires forall i :: 0 <= i < |files| && files[i].name != "" ==> p != ctx.ops.join(ctx.dir, files[i].name)
    ensures disk.Keys <= RunBatch(disk, files, ctx).disk.Keys
    ensures p in RunBatch(disk, files, ctx).disk <==> p in disk
    ensures p in disk ==> RunBatch(disk, files, ctx).disk[p] == disk[p]
    decreases |files|
  {
    RunFromKeepsPaths(Batch([], disk), files, ctx);
    if files != [] {
      BatchFrame(disk, files[..|files| - 1], ctx, p);
    }
  }

  /** With the existence check on, nothing on the disk is overwritten: every
      path that existed keeps its content. */
  lemma {:induction false} CheckedBatchKeepsExisting(disk: map<string, string>, files: seq<UploadFile>, ctx: Ctx)
    requires ctx.check
    ensures var d := RunBatch(disk, files, ctx).disk;
      forall p :: p in disk ==> p in d && d[p] == disk[p]
    decreases |files|
  {
    if files != [] {
      CheckedBatchKeepsExisting(disk, files[..|files| - 1], ctx);
    }
  }

  /** With the existence check on, a file with the name of an earlier
      successful file of the same batch fails as `File already exists`. */
  lemma CheckedBatchNoDuplicate(disk: map<string, string>, files: seq<UploadFile>, ctx: Ctx, i: nat, j: nat)
    requires ctx.check && i < j < |files| && files[i].name == files[j].name != ""
    ensures var b := RunBatch(disk, files, ctx);
      b.results[i].success ==> b.results[j] == FileResult(files[j].name, false, Some(AlreadyExists), None, None)
  {
    var b := RunBatch(disk, files, ctx);
    ResultAt(disk, files, ctx, i);
    ResultAt(disk, files, ctx, j);
    if b.results[i].success {
      var p := ctx.ops.join(ctx.dir, files[i].name);
      var afterI := RunBatch(disk, files[..i + 1], ctx);
      assert files[..i + 1][..i] == files[..i];
      assert p in afterI.disk;
      assert files[..j] == files[..i + 1] + files[i + 1..j];
      RunFromConcat(Batch([], disk), files[..i + 1], files[i + 1..j], ctx);
      RunFromKeepsPaths(afterI, files[i + 1..j], ctx);
    }
  }

  /** Every result is a success or a failure, so the two counts add up to
      the number of results. */
  lemma {:induction false} CountsAddUp(rs: seq<FileResult>)
    ensures CountSuccess(rs) + CountFailure(rs) == |rs|
    decreases |rs|
  {
    if rs != [] {
      CountsAddUp(rs[..|rs| - 1]);
    }
  }

  // ---------------------------------------------------------------------
  // The handlers.

  /** A request rejected before the loop (bad form, missing target or
      files, a target outside the writable roots, a failed `mkdir`) leaves
      the disk untouched. */
  lemma RejectionWritesNothing(verb: Verb, disk: map<string, string>, req: Request, host: Config.Host, ops: PathOps, faults: DiskFaults)
    requires !Handle(verb, disk, req, host, ops, faults).0.Uploaded?
    ensures Handle(verb, disk, req, host, ops, faults).1 == disk
  {
  }

  /** The validation order: a missing or empty target path is reported
      first, then a missing file list, then a target that may not be
      written. */
  lemma ValidationOrder(verb: Verb, disk: map<string, string>, form: Form, host: Config.Host, ops: PathOps, faults: DiskFaults)
    ensures form.targetPath.None? || form.targetPath == Some("") ==>
      Handle(verb, disk, Parsed(form), host, ops, faults).0 == BadRequest(TargetRequired)
    ensures form.targetPath.Some? && form.targetPath.value != "" && form.files == [] ==>
      Handle(verb, disk, Parsed(form), host, ops, faults).0 == BadRequest(NoFiles)
    ensures (form.targetPath.Some? && form.targetPath.value != "" && form.files != [] &&
             !Config.IsWriteAllowed(host, ops.resolve, ops.resolve(form.targetPath.value))) ==>
      Handle(verb, disk, Parsed(form), host, ops, faults).0 == Forbidden(AccessDenied)
  {
  }

  /** `POST` never overwrites, whatever the form says about overwriting. */
  lemma PostKeepsExisting(disk: map<string, string>, req: Request, host: Config.Host, ops: PathOps, faults: DiskFaults)
    ensures var d := Handle(Post, disk, req, host, ops, faults).1;
      forall p :: p in disk ==> p in d && d[p] == disk[p]
  {
    if req.Parsed? && req.form.targetPath.Some? {
      CheckedBatchKeepsExisting(disk, req.form.files, Ctx(ops.resolve(req.form.targetPath.value), true, None, ops, faults));
    }
  }

  /** A `PUT` with `overwrite=true` skips the existence check: a named file
      whose write does not fail succeeds even over an existing path, and
      says it overwrote. */
  lemma PutOverwrites(disk: map<string, string>, form: Form, host: Config.Host, ops: PathOps, faults: DiskFaults, i: nat)
    requires form.overwrite == Some("true")
    requires Handle(Put, disk, Parsed(form), host, ops, faults).0.Uploaded?
    requires i < |form.files| && form.files[i].name != ""
    requires ops.join(ops.resolve(form.targetPath.value), form.files[i].name) !in faults.writeErrors
    ensures var r := Handle(Put, disk, Parsed(form), host, ops, faults).0;
      i < |r.results| && r.results[i].success && r.results[i].overwritten == Some(true)
  {
    ResultAt(disk, form.files, Ctx(ops.resolve(form.targetPath.value), false, Some(true), ops, faults), i);
  }

  /** An accepted upload reports one result per file and counts that add up. */
  lemma UploadedCounts(verb: Verb, disk: map<string, string>, req: Request, host: Config.Host, ops: PathOps, faults: DiskFaults)
    requires Handle(verb, disk, req, host, ops, faults).0.Uploaded?
    ensures var r := Handle(verb, disk, req, host, ops, faults).0;
      && |r.results| == |req.form.files|
      && r.uploaded + r.failed == |r.results|
      && r.uploaded == CountSuccess(r.results)
  {
    CountsAddUp(Handle(verb, disk, req, host, ops, faults).0.results);
  }

  /** The disk the route writes to. */
  class Disk {
    var files: map<string, string>

    constructor (initial: map<string, string>)
      ensures files == initial
    {
      files := initial;
    }

    /** The loop of both handlers, pushing one result per file. */
    method Loop(uploads: seq<UploadFile>, ctx: Ctx) returns (results: seq<FileResult>)
      modifies this
      ensures Batch(results, files) == RunBatch(old(files), uploads, ctx)
    {
      results := [];
      for i := 0 to |uploads|
        invariant Batch(results, files) == RunBatch(old(files), uploads[..i], ctx)
      {
        assert uploads[..i + 1][..i] == uploads[..i];
        var f := uploads[i];
        if f.name == "" {
          results := results + [FileResult(UnknownName, false, Some(InvalidName), None, None)];
          continue;
        }
        var p := ctx.ops.join(ctx.dir, f.name);
        if ctx.check && p in files {
          results := results + [FileResult(f.name, false, Some(AlreadyExists), None, None)];
          continue;
        }
        if p in ctx.faults.writeErrors {
          results := results + [FileResult(f.name, false, Some(ctx.faults.writeErrors[p]), None, None)];
          continue;
        }
        files := files[p := f.content];
        results := results + [FileResult(f.name, true, None, Some(p), ctx.flag)];
      }
      assert uploads[..|uploads|] == uploads;
    }

    /** `POST` and `PUT`. */
    method Serve(verb: Verb, req: Request, host: Config.Host, ops: PathOps, faults: DiskFaults) returns (resp: Response)
      modifies this
      ensures (resp, files) == Handle(verb, old(files), req, host, ops, faults)
    {
      if req.Unparsable? {
        return BadRequest("Invalid request: " + req.message);
      }
      var form := req.form;
      if form.targetPath.None? || form.targetPath.value == "" {
        return BadRequest(TargetRequired);
      }
      if form.files == [] {
        return BadRequest(NoFiles);
      }
      var dir := ops.resolve(form.targetPath.value);
      if !Config.IsWriteAllowed(host, ops.resolve, dir) {
        return Forbidden(AccessDenied);
      }
      if faults.mkdirError.Some? {
        return ServerError("Upload failed: " + faults.mkdirError.value);
      }
      var overwrite := verb == Put && form.overwrite == Some("true");
      var results := Loop(form.files, Ctx(dir, !overwrite, if verb == Put then Some(overwrite) else None, ops, faults));
      resp := Uploaded(CountSuccess(results), CountFailure(results), results);
    }
  }
}
