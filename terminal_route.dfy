/** The command route (app/api/terminal/route.ts): a module-level table of
    working directories per session, a filter of dangerous commands, `cd`
    handled by the route itself, and every other command run by `exec` in
    the session's directory, with `pwd` able to correct the table. `fs.stat`,
    `path.resolve(cwd, target)` and `exec` are inputs: a map from paths to
    "is a directory", an opaque function, and the outcome of the run. */
module TerminalRoute {
  import opened Common

  /** The JSON body: `command`, `cwd` and `sessionId`, each possibly absent. */
  datatype Request = Request(command: Option<string>, cwd: Option<string>, sessionId: Option<string>)

  /** The request body: parsed, or rejected by `request.json()`. */
  datatype Body = Parsed(req: Request) | Unparsable(message: string)

  /** What the route reads from the process and the file system:
      `process.cwd()`, `process.env.HOME`, and the paths `fs.stat` finds,
      each mapped to whether it is a directory. */
  datatype Host = Host(processCwd: string, home: Option<string>, stat: map<string, bool>)

  /** How `exec` ended: with its output, or with an error carrying the
      output so far, a message and possibly an exit code. */
  datatype ExecOutcome =
    | Ran(stdout: string, stderr: string)
    | Failed(stdout: string, stderr: string, message: string, code: Option<int>)

  datatype Response =
    | BadRequest(error: string)
    | Forbidden(error: string)
    | ServerError(error: string)
    | Result(success: bool, stdout: string, stderr: string, cwd: string, exitCode: Option<int>)

  const DefaultSession := "default"
  const CommandRequired := "Command is required"
  const NotAllowed := "Command not allowed"
  const DangerousCommands: seq<string> := ["rm -rf /", "format", "del /f", "dd if="]

  /** The destructured `sessionId = 'default'`: only an absent id defaults. */
  function SessionOf(req: Request): string
  {
    if req.sessionId.Some? then req.sessionId.value else DefaultSession
  }

  /** `sessions.get(id)`. */
  function Lookup(sessions: map<string, string>, id: string): Option<string>
  {
    if id in sessions then Some(sessions[id]) else None
  }

  /** `sessions.get(id) || requestCwd || process.cwd()`. */
  function EffectiveCwd(sessions: map<string, string>, req: Request, host: Host): string
  {
    OrElse(Lookup(sessions, SessionOf(req)), OrElse(req.cwd, host.processCwd))
  }

  /** `dangerousCommands.some(cmd => command.includes(cmd))`. */
  predicate Dangerous(command: string)
  {
    exists d :: d in DangerousCommands && Includes(command, d)
  }

  /** `path.isAbsolute` on POSIX paths. */
  predicate IsAbsolute(p: string)
  {
    StartsWith(p, "/")
  }

  /** The directory `cd target` asks for. */
  function CdTarget(target: string, cwd: string, host: Host, resolve: (string, string) -> string): string
  {
    if target == "~" then OrElse(host.home, "/")
    else if target == "-" then cwd
    else if !IsAbsolute(target) then resolve(cwd, target)
    else target
  }

  /** `cd target` from `cwd`: the table changes only when the directory it
      asks for exists and is a directory. */
  function Cd(sessions: map<string, string>, id: string, target: string, cwd: string, host: Host, resolve: (string, string) -> string)
    : (Response, map<string, string>)
  {
    var newCwd := CdTarget(target, cwd, host, resolve);
    if newCwd !in host.stat then
      (Result(false, "", "cd: " + target + ": No such file or directory", cwd, None), sessions)
    else if !host.stat[newCwd] then
      (Result(false, "", "cd: " + target + ": Not a directory", cwd, None), sessions)
    else (Result(true, "", "", newCwd, None), sessions[id := newCwd])
  }

  /** Any other command, run by `exec` in `cwd`. */
  function Exec(sessions: map<string, string>, id: string, command: string, cwd: string, exec: ExecOutcome)
    : (Response, map<string, string>)
  {
    match exec
    case Ran(out, err) =>
      var pwd := Trim(out);
      if command == "pwd" && pwd != "" && pwd != cwd then (Result(true, out, err, pwd, None), sessions[id := pwd])
      else (Result(true, out, err, cwd, None), sessions)
    case Failed(out, err, message, code) =>
      (Result(false, out, if err != "" then err else message, cwd, code), sessions)
  }

  /** The whole handler: the response and the session table afterwards. */
  function Handle(sessions: map<string, string>, body: Body, host: Host, resolve: (string, string) -> string, exec: ExecOutcome)
    : (Response, map<string, string>)
  {
    if body.Unparsable? then (ServerError("Failed to execute command: " + body.message), sessions)
    else
      var req := body.req;
      if req.command.None? || req.command.value == "" then (BadRequest(CommandRequired), sessions)
      else if Dangerous(req.command.value) then (Forbidden(NotAllowed), sessions)
      else if StartsWith(req.command.value, "cd ") then
        Cd(sessions, SessionOf(req), Trim(req.command.value[3..]), EffectiveCwd(sessions, req, host), host, resolve)
      else Exec(sessions, SessionOf(req), req.command.value, EffectiveCwd(sessions, req, host), exec)
  }

  // ---------------------------------------------------------------------
  // Properties of the route.

  /** A missing or empty command is a 400 and the table is unchanged; an
      absent session id means `default`, an empty one does not. */
  lemma MissingCommand(sessions: map<string, string>, req: Request, host: Host, resolve: (string, string) -> string, exec: ExecOutcome)
    requires req.command.None? || req.command == Some("")
    ensures Handle(sessions, Parsed(req), host, resolve, exec) == (BadRequest(CommandRequired), sessions)
    ensures req.sessionId.None? ==> SessionOf(req) == DefaultSession
    ensures req.sessionId == Some("") ==> SessionOf(req) == ""
  {
  }

  /** A 403 happens exactly for a command holding one of the dangerous
      substrings, and leaves the table alone, even for a `cd`. */
  lemma ForbiddenIffDangerous(sessions: map<string, string>, req: Request, host: Host, resolve: (string, string) -> string, exec: ExecOutcome)
    requires req.command.Some? && req.command.value != ""
    ensures Handle(sessions, Parsed(req), host, resolve, exec).0.Forbidden? <==> Dangerous(req.command.value)
    ensures Dangerous(req.command.value) ==> Handle(sessions, Parsed(req), host, resolve, exec) == (Forbidden(NotAllowed), sessions)
  {
    var command := req.command.value;
    if !Dangerous(command) {
      var id, cwd := SessionOf(req), EffectiveCwd(sessions, req, host);
      if StartsWith(command, "cd ") {
        var target := Trim(command[3..]);
        assert Handle(sessions, Parsed(req), host, resolve, exec) == Cd(sessions, id, target, cwd, host, resolve);
        assert Cd(sessions, id, target, cwd, host, resolve).0.Result?;
      } else {
        assert Handle(sessions, Parsed(req), host, resolve, exec) == Exec(sessions, id, command, cwd, exec);
        assert Exec(sessions, id, command, cwd, exec).0.Result?;
      }
    }
  }

  /** The filter matches substrings anywhere: it also blocks harmless
      commands such as reading a file named `information.txt`. */
  lemma SubstringFilter()
    ensures Dangerous("cat information.txt")
    ensures Dangerous("cd /tmp && dd if=/dev/zero")
  {
    IncludesAt("cat information.txt", "format", 6);
    assert DangerousCommands[1] == "format";
    assert "cd /tmp && dd if=/dev/zero"[11..17] == "dd if=";
    IncludesAt("cd /tmp && dd if=/dev/zero", "dd if=", 11);
    assert DangerousCommands[3] == "dd if=";
  }

  /** The directory a command runs in: the stored one, else the request's,
      else the process's (empty strings count as missing). */
  lemma CwdFallback(sessions: map<string, string>, req: Request, host: Host)
    ensures SessionOf(req) in sessions && sessions[SessionOf(req)] != "" ==> EffectiveCwd(sessions, req, host) == sessions[SessionOf(req)]
    ensures (SessionOf(req) !in sessions || sessions[SessionOf(req)] == "") && req.cwd.Some? && req.cwd.value != "" ==>
      EffectiveCwd(sessions, req, host) == req.cwd.value
    ensures (SessionOf(req) !in sessions || sessions[SessionOf(req)] == "") && (req.cwd.None? || req.cwd == Some("")) ==>
      EffectiveCwd(sessions, req, host) == host.processCwd
  {
  }

  /** `cd ~` goes home (or to `/` without a home), `cd -` stays, a relative
      target is resolved against the current directory, and an absolute one
      is used as it is. */
  lemma CdResolution(target: string, cwd: string, host: Host, resolve: (string, string) -> string)
    ensures target == "~" ==> CdTarget(target, cwd, host, resolve) == (if host.home.Some? && host.home.value != "" then host.home.value else "/")
    ensures target == "-" ==> CdTarget(target, cwd, host, resolve) == cwd
    ensures target != "~" && target != "-" && !StartsWith(target, "/") ==> CdTarget(target, cwd, host, resolve) == resolve(cwd, target)
    ensures StartsWith(target, "/") ==> CdTarget(target, cwd, host, resolve) == target
  {
    if StartsWith(target, "/") {
      assert target[0] == '/';
      assert target != "~" && target != "-";
    }
  }

  /** A `cd` changes the table exactly when its target is a directory, and
      then only the session's own entry, to that directory; otherwise it
      fails and reports the old directory. */
  lemma CdUpdatesOnlyToDirectory(sessions: map<string, string>, req: Request, host: Host, resolve: (string, string) -> string, exec: ExecOutcome)
    requires req.command.Some? && req.command.value != "" && !Dangerous(req.command.value) && StartsWith(req.command.value, "cd ")
    ensures var (resp, after) := Handle(sessions, Parsed(req), host, resolve, exec);
      var cwd := EffectiveCwd(sessions, req, host);
      var target := CdTarget(Trim(req.command.value[3..]), cwd, host, resolve);
      && resp.Result?
      && (target in host.stat && host.stat[target] ==> resp.success && resp.cwd == target && after == sessions[SessionOf(req) := target])
      && (!(target in host.stat && host.stat[target]) ==> !resp.success && resp.cwd == cwd && after == sessions)
  {
  }

  /** After a successful `pwd`, a non-empty trimmed output that differs
      from the current directory becomes the session's directory; any other
      output leaves the table alone. */
  lemma PwdCorrectsTable(sessions: map<string, string>, req: Request, host: Host, resolve: (string, string) -> string, out: string, err: string)
    requires req.command == Some("pwd")
    ensures var (resp, after) := Handle(sessions, Parsed(req), host, resolve, Ran(out, err));
      var cwd := EffectiveCwd(sessions, req, host);
      && resp.Result? && resp.success && resp.stdout == out && resp.stderr == err
      && (Trim(out) != "" && Trim(out) != cwd ==> after == sessions[SessionOf(req) := Trim(out)] && resp.cwd == Trim(out))
      && (Trim(out) == "" || Trim(out) == cwd ==> after == sessions && resp.cwd == cwd)
  {
    PwdIsHarmless();
    var cwd := EffectiveCwd(sessions, req, host);
    assert Handle(sessions, Parsed(req), host, resolve, Ran(out, err)) == Exec(sessions, SessionOf(req), "pwd", cwd, Ran(out, err));
  }

  /** A pattern longer than the text never occurs in it. */
  lemma {:induction false} IncludesNeedsRoom(s: string, sub: string)
    requires |sub| > |s|
    ensures !Includes(s, sub)
    decreases |s|
  {
    if |s| > 0 {
      IncludesNeedsRoom(s[1..], sub);
    }
  }

  /** `pwd` passes the filter and is not a `cd`. */
  lemma PwdIsHarmless()
    ensures !Dangerous("pwd") && !StartsWith("pwd", "cd ")
  {
    forall d | d in DangerousCommands ensures !Includes("pwd", d) {
      IncludesNeedsRoom("pwd", d);
    }
    assert "pwd"[0] != "cd "[0];
  }

  /** A command that fails leaves the table alone and reports `stderr`, or
      the error message when `stderr` is empty, with the exit code. */
  lemma FailedCommandKeepsTable(sessions: map<string, string>, req: Request, host: Host, resolve: (string, string) -> string,
                                out: string, err: string, message: string, code: Option<int>)
    requires req.command.Some? && req.command.value != "" && !Dangerous(req.command.value) && !StartsWith(req.command.value, "cd ")
    ensures var (resp, after) := Handle(sessions, Parsed(req), host, resolve, Failed(out, err, message, code));
      && after == sessions
      && resp == Result(false, out, if err != "" then err else message, EffectiveCwd(sessions, req, host), code)
  {
  }

  /** `after` is `before`, or `before` with only the entry of `id` set. */
  predicate ChangesOnlyAt(before: map<string, string>, after: map<string, string>, id: string)
  {
    after == before || (id in after && after == before[id := after[id]])
  }

  lemma SetChangesOnlyAt(before: map<string, string>, id: string, v: string)
    ensures ChangesOnlyAt(before, before[id := v], id)
  {
    var after := before[id := v];
    assert after == before[id := after[id]];
  }

  lemma CdChangesOnlyAt(sessions: map<string, string>, id: string, target: string, cwd: string, host: Host, resolve: (string, string) -> string)
    ensures ChangesOnlyAt(sessions, Cd(sessions, id, target, cwd, host, resolve).1, id)
  {
    SetChangesOnlyAt(sessions, id, CdTarget(target, cwd, host, resolve));
  }

  lemma ExecChangesOnlyAt(sessions: map<string, string>, id: string, command: string, cwd: string, exec: ExecOutcome)
    ensures ChangesOnlyAt(sessions, Exec(sessions, id, command, cwd, exec).1, id)
  {
    if exec.Ran? {
      SetChangesOnlyAt(sessions, id, Trim(exec.stdout));
    }
  }

  /** Whatever happens, at most the requesting session's entry changes, and
      no entry is ever removed. */
  lemma OnlyOwnSessionChanges(sessions: map<string, string>, body: Body, host: Host, resolve: (string, string) -> string, exec: ExecOutcome)
    ensures var after := Handle(sessions, body, host, resolve, exec).1;
      && sessions.Keys <= after.Keys
      && (body.Parsed? ==> ChangesOnlyAt(sessions, after, SessionOf(body.req)))
      && (body.Unparsable? ==> after == sessions)
  {
    if body.Parsed? {
      var req := body.req;
      var id := SessionOf(req);
      var cwd := EffectiveCwd(sessions, req, host);
      if req.command.Some? && req.command.value != "" && !Dangerous(req.command.value) {
        var command := req.command.value;
        if StartsWith(command, "cd ") {
          CdChangesOnlyAt(sessions, id, Trim(command[3..]), cwd, host, resolve);
        } else {
          ExecChangesOnlyAt(sessions, id, command, cwd, exec);
        }
      }
    }
  }

  /** The route's module-level `sessions` table. */
  class Route {
    var sessions: map<string, string>

    constructor ()
      ensures sessions == map[]
    {
      sessions := map[];
    }

    /** `POST`. */
    method Post(body: Body, host: Host, resolve: (string, string) -> string, exec: ExecOutcome) returns (resp: Response)
      modifies this
      ensures (resp, sessions) == Handle(old(sessions), body, host, resolve, exec)
    {
      if body.Unparsable? {
        return ServerError("Failed to execute command: " + body.message);
      }
      var req := body.req;
      var id := SessionOf(req);
      if req.command.None? || req.command.value == "" {
        return BadRequest(CommandRequired);
      }
      var command := req.command.value;
      var cwd := EffectiveCwd(sessions, req, host);
      if Dangerous(command) {
        return Forbidden(NotAllowed);
      }
      if StartsWith(command, "cd ") {
        var target := Trim(command[3..]);
        var newCwd := target;
        if target == "~" {
          newCwd := OrElse(host.home, "/");
        } else if target == "-" {
          newCwd := cwd;
        } else if !IsAbsolute(target) {
          newCwd := resolve(cwd, target);
        }
        if newCwd !in host.stat {
          return Result(false, "", "cd: " + target + ": No such file or directory", cwd, None);
        }
        if !host.stat[newCwd] {
          return Result(false, "", "cd: " + target + ": Not a directory", cwd, None);
        }
        sessions := sessions[id := newCwd];
        return Result(true, "", "", newCwd, None);
      }
      match exec
      case Ran(out, err) =>
        if command == "pwd" {
          var pwd := Trim(out);
          if pwd != "" && pwd != cwd {
            sessions := sessions[id := pwd];
            cwd := pwd;
          }
        }
        resp := Result(true, out, err, cwd, None);
      case Failed(out, err, message, code) =>
        resp := Result(false, out, if err != "" then err else message, cwd, code);
    }
  }
}
