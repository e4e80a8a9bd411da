/** The client-side helpers of lib/file-operations.ts: the extension and
    text-file classification of a file name, and the results the request
    helpers return when a request fails. The HTTP exchange is an input: the
    request either produced a response (with its `ok` flag and the fields of
    its JSON body the helpers read) or threw. */
module FileOperations {
  import opened Common

  // ---------------------------------------------------------------------
  // Classification of file names.

  /** `s.lastIndexOf(c)`: the last position holding `c`, or -1. */
  function LastIndexOf(s: string, c: char): (i: int)
    ensures -1 <= i < |s|
    ensures i == -1 <==> c !in s
    ensures 0 <= i ==> s[i] == c && c !in s[i + 1..]
  {
    if s == [] then -1
    else if s[|s| - 1] == c then |s| - 1
    else
      var i := LastIndexOf(s[..|s| - 1], c);
      assert s == s[..|s| - 1] + [s[|s| - 1]];
      if i == -1 then -1
      else
        assert s[i + 1..] == s[..|s| - 1][i + 1..] + [s[|s| - 1]];
        i
  }

  /** `getFileExtension(filename)`. A name without a dot has the empty
      extension; otherwise the extension is the lower-cased text after the
      last dot (empty for a trailing dot), so it never holds a dot. */
  function FileExtension(name: string): (ext: string)
    ensures '.' !in name ==> ext == ""
    ensures '.' in name ==>
      && |ext| < |name| && name[|name| - |ext| - 1] == '.'
      && ext == Lower(name[|name| - |ext|..])
    ensures '.' !in ext
    ensures forall i :: 0 <= i < |ext| ==> !('A' <= ext[i] <= 'Z')
  {
    var dot := LastIndexOf(name, '.');
    if dot == -1 then ""
    else
      var ext := Lower(name[dot + 1..]);
      assert forall i :: 0 <= i < |ext| ==> ext[i] == LowerChar(name[dot + 1 + i]);
      ext
  }

  /** The extensions `isTextFile` accepts. */
  const TextExtensions: seq<string> := [
    "txt", "md", "js", "ts", "tsx", "jsx", "json", "css", "html", "xml",
    "yml", "yaml", "py", "java", "c", "cpp", "h", "php", "rb", "go",
    "rs", "sh", "sql", "csv", "log", "config", "conf", "ini"
  ]

  /** `isTextFile(filename)`. */
  predicate IsTextFile(name: string)
  {
    FileExtension(name) in TextExtensions
  }

  lemma LowerIdempotent(s: string)
    ensures Lower(Lower(s)) == Lower(s)
  {
  }

  /** Lower-casing keeps the last dot where it is. */
  lemma {:induction false} LowerKeepsLastDot(s: string)
    ensures LastIndexOf(Lower(s), '.') == LastIndexOf(s, '.')
    decreases |s|
  {
    if s != [] {
      var l := Lower(s);
      assert l[..|l| - 1] == Lower(s[..|s| - 1]);
      LowerKeepsLastDot(s[..|s| - 1]);
    }
  }

  /** Lower-casing commutes with taking a suffix. */
  lemma LowerSuffix(s: string, k: nat)
    requires k <= |s|
    ensures Lower(s)[k..] == Lower(s[k..])
  {
  }

  /** The extension of a name does not depend on the case of its letters. */
  lemma ExtensionIgnoresCase(name: string)
    ensures FileExtension(Lower(name)) == FileExtension(name)
  {
    LowerKeepsLastDot(name);
    var dot := LastIndexOf(name, '.');
    if dot != -1 {
      LowerSuffix(name, dot + 1);
      LowerIdempotent(name[dot + 1..]);
    }
  }

  /** Hence `isTextFile` is case-insensitive. */
  lemma TextFileIgnoresCase(name: string)
    ensures IsTextFile(Lower(name)) == IsTextFile(name)
  {
    ExtensionIgnoresCase(name);
  }

  /** A name without a dot is never a text file: the empty extension is not
      on the list. */
  lemma NoDotIsNotText(name: string)
    requires '.' !in name
    ensures !IsTextFile(name)
  {
  }

  /** Only the part after the last dot counts, and its case does not. */
  lemma MixedCaseExample()
    ensures FileExtension("notes.bak.MD") == "md" && IsTextFile("notes.bak.MD")
  {
    var n := "notes.bak.MD";
    assert LastIndexOf(n, '.') == 9;
    assert Lower("MD") == "md";
    assert TextExtensions[1] == "md";
  }

  /** A trailing dot gives the empty extension. */
  lemma TrailingDotExample()
    ensures FileExtension("Makefile.") == "" && !IsTextFile("Makefile.")
  {
    assert LastIndexOf("Makefile.", '.') == 8;
  }

  // ---------------------------------------------------------------------
  // Failure results of the request helpers.

  /** How a request ended: a response whose body may carry `error` (and, for
      an ok response, the `path`/`newPath` and `results` fields), or an
      exception, which is an `Error` with a message or some other value. */
  datatype Outcome =
    | Responded(ok: bool, error: Option<string>, path: Option<string>, results: Option<seq<ItemResult>>)
    | Threw(message: Option<string>)

  /** `FileOperationResult`. */
  datatype OperationResult = OperationResult(success: bool, error: Option<string>, path: Option<string>)

  /** One entry of `BulkOperationResult.results`. */
  datatype ItemResult = ItemResult(path: string, success: bool, error: Option<string>)

  datatype BulkResult = BulkResult(success: bool, results: seq<ItemResult>)

  /** The item-level operations (`createFileOrFolder`, `renameItem`). */
  datatype SingleOp = Create | Rename

  /** The batch operations (`deleteItems`, `moveItems`, `copyItems`,
      `uploadFiles`). */
  datatype BulkOp = Delete | Move | Copy | Upload

  const NetworkError := "Network error"

  function SingleDefault(op: SingleOp): string
  {
    match op
    case Create => "Failed to create item"
    case Rename => "Failed to rename item"
  }

  function BulkDefault(op: BulkOp): string
  {
    match op
    case Delete => "Failed to delete item"
    case Move => "Failed to move item"
    case Copy => "Failed to copy item"
    case Upload => "Failed to upload file"
  }

  /** The message of a failed request: `result.error || default` for a
      response that is not ok, `error.message` for a thrown `Error`, and
      `'Network error'` for anything else thrown. */
  function FailureMessage(o: Outcome, default: string): (m: string)
    requires !(o.Responded? && o.ok)
    ensures o.Responded? && o.error.Some? && o.error.value != "" ==> m == o.error.value
    ensures o.Responded? && (o.error.None? || o.error.value == "") ==> m == default
    ensures o.Threw? && o.message.Some? ==> m == o.message.value
    ensures o.Threw? && o.message.None? ==> m == NetworkError
  {
    match o
    case Responded(_, error, _, _) => OrElse(error, default)
    case Threw(message) => if message.Some? then message.value else NetworkError
  }

  /** `createFileOrFolder` and `renameItem`. */
  function Single(op: SingleOp, o: Outcome): (r: OperationResult)
    ensures r.success <==> o.Responded? && o.ok
    ensures r.success ==> r.error.None? && r.path == o.path
    ensures !r.success ==> r.path.None? && r.error == Some(FailureMessage(o, SingleDefault(op)))
  {
    if o.Responded? && o.ok then OperationResult(true, None, o.path)
    else OperationResult(false, Some(FailureMessage(o, SingleDefault(op))), None)
  }

  /** `paths.map(path => ({ path, success: false, error: message }))`. */
  function FailEach(paths: seq<string>, message: string): (r: seq<ItemResult>)
    ensures |r| == |paths|
    ensures forall i :: 0 <= i < |r| ==> r[i] == ItemResult(paths[i], false, Some(message))
  {
    if paths == [] then [] else [ItemResult(paths[0], false, Some(message))] + FailEach(paths[1..], message)
  }

  /** The batch helpers. A successful response passes the server's
      `results` through (`|| []`); any failure yields one failed entry per
      input path (the file names for an upload), in input order, all with
      the same message. */
  function Bulk(op: BulkOp, paths: seq<string>, o: Outcome): (r: BulkResult)
    ensures r.success <==> o.Responded? && o.ok
    ensures r.success ==> r.results == (if o.results.Some? then o.results.value else [])
    ensures !r.success ==>
      && |r.results| == |paths|
      && forall i :: 0 <= i < |paths| ==>
           r.results[i] == ItemResult(paths[i], false, Some(FailureMessage(o, BulkDefault(op))))
  {
    if o.Responded? && o.ok then BulkResult(true, if o.results.Some? then o.results.value else [])
    else BulkResult(false, FailEach(paths, FailureMessage(o, BulkDefault(op))))
  }

  /** A failed batch reports no success at all, and an HTTP failure always
      carries a non-empty message. */
  lemma {:induction false} FailedBatchAllFail(op: BulkOp, paths: seq<string>, o: Outcome)
    requires !(o.Responded? && o.ok)
    ensures forall e :: e in Bulk(op, paths, o).results ==> !e.success
    ensures forall e :: e in Bulk(op, paths, o).results ==> e.path in paths
    ensures o.Responded? ==> FailureMessage(o, BulkDefault(op)) != ""
  {
    var r := Bulk(op, paths, o);
    forall e | e in r.results ensures !e.success && e.path in paths {
      var i :| 0 <= i < |r.results| && r.results[i] == e;
      assert e.path == paths[i];
    }
  }

  /** Failure entries of a concatenation of path lists are the entries of the
      parts, one after the other. */
  lemma {:induction false} FailEachConcat(a: seq<string>, b: seq<string>, message: string)
    ensures FailEach(a + b, message) == FailEach(a, message) + FailEach(b, message)
    decreases |a|
  {
    if a == [] {
      assert a + b == b;
    } else {
      assert (a + b)[0] == a[0] && (a + b)[1..] == a[1..] + b;
      FailEachConcat(a[1..], b, message);
    }
  }
}
