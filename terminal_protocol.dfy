/** The wire protocol and the opaque identities shared by the two terminal
    servers (pty-server.js, and the per-connection variant in server.js and
    server/index.js). Sockets and PTY processes are opaque numbers; a JSON
    frame is reduced to the fields the handlers read. */
module TerminalProtocol {
  import opened Common

  type SessionId = string
  /** A WebSocket, by identity. */
  type Conn = nat
  /** A PTY process handle, by identity. */
  type Handle = nat

  const DefaultSession: SessionId := "default"
  /** Every PTY is spawned with an 80x24 window. */
  const SpawnCols: int := 80
  const SpawnRows: int := 24

  /** A frame a server sends to one socket (its `type` is `ready`, `data`, `exit` or `error`). */
  datatype ServerMsg =
    | Ready
    | Data(data: string)
    | Exit(exitCode: int, signal: Option<int>)
    | Error(message: string)

  /** An inbound frame: either text that `JSON.parse` rejects, or an object
      whose `type`, `data`, `cols` and `rows` fields the handlers read
      (`cols`/`rows` absent, or a number). */
  datatype Frame =
    | Malformed
    | Message(kind: string, data: string, cols: Option<int>, rows: Option<int>)

  /** What the server does to a PTY, in the order it does it. */
  datatype PtyOp =
    | Spawn(cols: int, rows: int)
    | Write(data: string)
    | Resize(cols: int, rows: int)
    | Kill

  /** `searchParams.get('sessionId') || 'default'` (also `url.query.sessionId || 'default'`):
      a missing or empty query value falls back to the shared default session. */
  function SessionIdOf(query: Option<string>): (sid: SessionId)
    ensures query.None? ==> sid == DefaultSession
    ensures query.Some? && query.value != "" ==> sid == query.value
    ensures query.Some? && query.value == "" ==> sid == DefaultSession
    ensures sid != ""
  {
    OrElse(query, DefaultSession)
  }

  /** JavaScript truthiness of an optional number. */
  predicate Truthy(n: Option<int>)
  {
    n.Some? && n.value != 0
  }

  /** `n || d` on an optional number: absent or zero gives the default. */
  function NumberOr(n: Option<int>, d: int): (r: int)
    ensures Truthy(n) ==> r == n.value
    ensures !Truthy(n) ==> r == d
  {
    if Truthy(n) then n.value else d
  }
}
