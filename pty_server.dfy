/** The shared-session PTY server of pty-server.js.

    One PTY per session id, shared by every socket that joins the id. Each
    event handler of the source (a new connection, an inbound frame, a chunk
    of PTY output, a PTY exit, a socket close, SIGINT) runs to completion on
    the event loop, so each is one atomic step: a function on `State` that
    says what the step does, and a method of the class `Server`, whose fields
    are the module-level maps of the source, that performs it in place.
    Spawn success and resize failure are inputs; sockets and PTYs are opaque
    numbers. */
module PtyServer {
  import opened Common
  import opened TerminalProtocol

  /** The `error` message a socket gets when its PTY cannot be spawned. */
  const SpawnFailure := "Failed to create shell process"

  /** What the server knows of one accepted socket: the id it joined, the PTY it
      captured at connect time (`None` when the spawn threw, in which case no
      message or close handler was registered), and whether it is OPEN. */
  datatype Socket = Socket(session: SessionId, captured: Option<Handle>, open: bool)

  /** A spawned PTY: the id its callbacks close over, and whether it has exited. */
  datatype Pty = Pty(session: SessionId, exited: bool)

  /** The whole server: `sessions` and `connections` as in the source, the
      sockets and PTYs by identity, the frames sent to each socket and the
      operations done to each PTY (both oldest first). */
  datatype State = State(
    sessions: map<SessionId, Handle>,
    connections: map<SessionId, set<Conn>>,
    sockets: map<Conn, Socket>,
    sent: map<Conn, seq<ServerMsg>>,
    ptys: map<Handle, Pty>,
    ptyLog: map<Handle, seq<PtyOp>>,
    nextHandle: Handle)

  function Initial(): State
  {
    State(map[], map[], map[], map[], map[], map[], 0)
  }

  /** The sockets in the set of `sid`. */
  function Members(connections: map<SessionId, set<Conn>>, sid: SessionId): set<Conn>
  {
    if sid in connections then connections[sid] else {}
  }

  /** The sockets a broadcast to `sid` reaches: the open members of its set. */
  function Receivers(connections: map<SessionId, set<Conn>>, sockets: map<Conn, Socket>, sid: SessionId): set<Conn>
  {
    set c | c in Members(connections, sid) && c in sockets && sockets[c].open
  }

  /** Every socket in a set was accepted for that id, and a socket leaves its
      set only through its close handler: while it is open, or when it never
      got one, it is in the set of its id. */
  ghost predicate MembershipOk(connections: map<SessionId, set<Conn>>, sockets: map<Conn, Socket>)
  {
    && (forall c :: c in sockets ==> sockets[c].session in connections)
    && (forall sid, c :: sid in connections && c in connections[sid] ==>
          c in sockets && sockets[c].session == sid)
    && (forall c :: c in sockets && (sockets[c].open || sockets[c].captured.None?) ==>
          c in connections[sockets[c].session])
  }

  /** Each captured PTY exists and belongs to the socket's id. */
  ghost predicate CaptureOk(sockets: map<Conn, Socket>, ptys: map<Handle, Pty>)
  {
    forall c :: c in sockets && sockets[c].captured.Some? ==>
      sockets[c].captured.value in ptys && ptys[sockets[c].captured.value].session == sockets[c].session
  }

  /** Handles are never reused; the registered PTY of an id is live, and a live
      PTY is the registered one of its id, so no id has two live PTYs. */
  ghost predicate RegistryOk(sessions: map<SessionId, Handle>, ptys: map<Handle, Pty>, nextHandle: Handle)
  {
    && (forall h :: h in ptys ==> h < nextHandle)
    && (forall sid :: sid in sessions ==>
          sessions[sid] in ptys && ptys[sessions[sid]].session == sid && !ptys[sessions[sid]].exited)
    && (forall h :: h in ptys && !ptys[h].exited ==>
          ptys[h].session in sessions && sessions[ptys[h].session] == h)
  }

  /** The bookkeeping every step keeps. */
  ghost predicate Inv(st: State)
  {
    && st.sockets.Keys == st.sent.Keys
    && st.ptys.Keys == st.ptyLog.Keys
    && MembershipOk(st.connections, st.sockets)
    && CaptureOk(st.sockets, st.ptys)
    && RegistryOk(st.sessions, st.ptys, st.nextHandle)
  }

  /** `wss.on('connection')`: the socket joins the set of its id (creating the
      set), reuses the id's PTY or spawns a fresh 80x24 one, and gets `ready`;
      when the spawn throws it gets `error` instead, and stays in the set. */
  function ConnectStep(st: State, ws: Conn, query: Option<string>, spawnOk: bool): State
    requires ws !in st.sockets
  {
    var sid := SessionIdOf(query);
    var connections := st.connections[sid := Members(st.connections, sid) + {ws}];
    if sid in st.sessions then
      st.(connections := connections,
          sockets := st.sockets[ws := Socket(sid, Some(st.sessions[sid]), true)],
          sent := st.sent[ws := [Ready]])
    else if spawnOk then
      var h := st.nextHandle;
      State(st.sessions[sid := h], connections,
            st.sockets[ws := Socket(sid, Some(h), true)], st.sent[ws := [Ready]],
            st.ptys[h := Pty(sid, false)], st.ptyLog[h := [Spawn(SpawnCols, SpawnRows)]], h + 1)
    else
      st.(connections := connections,
          sockets := st.sockets[ws := Socket(sid, None, true)],
          sent := st.sent[ws := [Error(SpawnFailure)]])
  }

  /** `ptyProcess.onData`: the chunk goes to every open socket in the set of the
      PTY's id, whichever PTY each of them captured. */
  function DataStep(st: State, h: Handle, chunk: string): State
    requires h in st.ptys
  {
    st.(sent := AppendAt(st.sent, Receivers(st.connections, st.sockets, st.ptys[h].session), Data(chunk)))
  }

  /** `ptyProcess.onExit`: the id loses its PTY, then every open socket in its
      set gets `exit`; the set itself is kept. */
  function ExitStep(st: State, h: Handle, exitCode: int, signal: Option<int>): State
    requires h in st.ptys
  {
    var sid := st.ptys[h].session;
    st.(sessions := st.sessions - {sid},
        ptys := st.ptys[h := Pty(sid, true)],
        sent := AppendAt(st.sent, Receivers(st.connections, st.sockets, sid), Exit(exitCode, signal)))
  }

  /** What an inbound frame does to the captured PTY: `input` writes, `resize`
      resizes when both sizes are truthy and the resize call does not throw;
      every other type, and a frame `JSON.parse` rejects, does nothing. */
  function Dispatch(frame: Frame, resizeOk: bool): (op: Option<PtyOp>)
    ensures op.Some? <==> (frame.Message? && (frame.kind == "input"
      || (frame.kind == "resize" && Truthy(frame.cols) && Truthy(frame.rows) && resizeOk)))
    ensures op.Some? && frame.kind == "input" ==> op.value == Write(frame.data)
    ensures op.Some? && frame.kind == "resize" ==> op.value == Resize(frame.cols.value, frame.rows.value)
  {
    match frame
    case Malformed => None
    case Message(kind, data, cols, rows) =>
      if kind == "input" then Some(Write(data))
      else if kind == "resize" && Truthy(cols) && Truthy(rows) && resizeOk then Some(Resize(cols.value, rows.value))
      else None
  }

  /** `ws.on('message')`: the frame acts on the PTY the socket captured when it
      connected. A socket without handlers ignores frames. */
  function ReceiveStep(st: State, ws: Conn, frame: Frame, resizeOk: bool): State
  {
    if ws in st.sockets && st.sockets[ws].captured.Some? && Dispatch(frame, resizeOk).Some?
       && st.sockets[ws].captured.value in st.ptyLog then
      var h := st.sockets[ws].captured.value;
      st.(ptyLog := st.ptyLog[h := st.ptyLog[h] + [Dispatch(frame, resizeOk).value]])
    else st
  }

  /** The socket closes (readyState leaves OPEN) and its close handler, if it
      has one, deletes it from its set. No PTY is killed. */
  function CloseStep(st: State, ws: Conn): State
  {
    if ws !in st.sockets then st
    else
      var s := st.sockets[ws];
      var sockets := st.sockets[ws := s.(open := false)];
      if s.captured.Some? then
        st.(sockets := sockets, connections := st.connections[s.session := Members(st.connections, s.session) - {ws}])
      else st.(sockets := sockets)
  }

  /** SIGINT: every PTY in `sessions` is killed. */
  function ShutdownStep(st: State): State
  {
    st.(ptyLog := AppendAt(st.ptyLog, st.sessions.Values, Kill))
  }

  // ---------------------------------------------------------------------
  // Every step keeps the invariant.

  lemma InitialInv()
    ensures Inv(Initial())
  {
  }

  /** A new socket joins the set of its id. */
  lemma JoinKeepsMembership(connections: map<SessionId, set<Conn>>, sockets: map<Conn, Socket>, ws: Conn, s: Socket)
    requires MembershipOk(connections, sockets) && ws !in sockets
    ensures MembershipOk(connections[s.session := Members(connections, s.session) + {ws}], sockets[ws := s])
  {
    var connections', sockets' := connections[s.session := Members(connections, s.session) + {ws}], sockets[ws := s];
    forall c | c in sockets' && (sockets'[c].open || sockets'[c].captured.None?)
      ensures c in connections'[sockets'[c].session]
    {
      if c != ws {
        assert c in connections[sockets[c].session];
      }
    }
  }

  /** A socket with handlers leaves the set of its id when it closes. */
  lemma LeaveKeepsMembership(connections: map<SessionId, set<Conn>>, sockets: map<Conn, Socket>, ws: Conn)
    requires MembershipOk(connections, sockets) && ws in sockets
    ensures var s := sockets[ws];
      var sockets' := sockets[ws := s.(open := false)];
      && MembershipOk(connections, sockets')
      && (s.captured.Some? ==> MembershipOk(connections[s.session := Members(connections, s.session) - {ws}], sockets'))
  {
    var s := sockets[ws];
    var sockets' := sockets[ws := s.(open := false)];
    var connections' := connections[s.session := Members(connections, s.session) - {ws}];
    forall c | c in sockets' && (sockets'[c].open || sockets'[c].captured.None?)
      ensures c in connections[sockets'[c].session]
      ensures s.captured.Some? ==> c in connections'[sockets'[c].session]
    {
      assert c in connections[sockets[c].session];
    }
  }

  /** A new socket captures a PTY of its id (or none). */
  lemma NewSocketKeepsCapture(sockets: map<Conn, Socket>, ptys: map<Handle, Pty>, ws: Conn, s: Socket)
    requires CaptureOk(sockets, ptys)
    requires s.captured.Some? ==> s.captured.value in ptys && ptys[s.captured.value].session == s.session
    ensures CaptureOk(sockets[ws := s], ptys)
  {
  }

  /** A fresh handle registered for an id without a PTY. */
  lemma SpawnKeepsRegistry(sessions: map<SessionId, Handle>, ptys: map<Handle, Pty>, nextHandle: Handle, sid: SessionId)
    requires RegistryOk(sessions, ptys, nextHandle) && sid !in sessions
    ensures RegistryOk(sessions[sid := nextHandle], ptys[nextHandle := Pty(sid, false)], nextHandle + 1)
    ensures forall sockets :: CaptureOk(sockets, ptys) ==> CaptureOk(sockets, ptys[nextHandle := Pty(sid, false)])
  {
  }

  /** `Inv` from its parts, on a state given field by field. */
  lemma InvOf(sessions: map<SessionId, Handle>, connections: map<SessionId, set<Conn>>,
              sockets: map<Conn, Socket>, sent: map<Conn, seq<ServerMsg>>,
              ptys: map<Handle, Pty>, ptyLog: map<Handle, seq<PtyOp>>, nextHandle: Handle)
    requires sockets.Keys == sent.Keys && ptys.Keys == ptyLog.Keys
    requires MembershipOk(connections, sockets) && CaptureOk(sockets, ptys)
    requires RegistryOk(sessions, ptys, nextHandle)
    ensures Inv(State(sessions, connections, sockets, sent, ptys, ptyLog, nextHandle))
  {
  }

  /** Every member of a set is a known socket. */
  lemma MembersAreSockets(st: State, sid: SessionId)
    requires Inv(st)
    ensures Members(st.connections, sid) <= st.sockets.Keys == st.sent.Keys
  {
  }

  lemma ConnectKeepsInv(st: State, ws: Conn, query: Option<string>, spawnOk: bool)
    requires Inv(st) && ws !in st.sockets
    ensures Inv(ConnectStep(st, ws, query, spawnOk))
  {
    var sid := SessionIdOf(query);
    var connections := st.connections[sid := Members(st.connections, sid) + {ws}];
    if sid in st.sessions {
      var s := Socket(sid, Some(st.sessions[sid]), true);
      JoinKeepsMembership(st.connections, st.sockets, ws, s);
      NewSocketKeepsCapture(st.sockets, st.ptys, ws, s);
      InvOf(st.sessions, connections, st.sockets[ws := s], st.sent[ws := [Ready]], st.ptys, st.ptyLog, st.nextHandle);
    } else if spawnOk {
      var h := st.nextHandle;
      var s := Socket(sid, Some(h), true);
      var ptys := st.ptys[h := Pty(sid, false)];
      JoinKeepsMembership(st.connections, st.sockets, ws, s);
      SpawnKeepsRegistry(st.sessions, st.ptys, h, sid);
      NewSocketKeepsCapture(st.sockets, ptys, ws, s);
      InvOf(st.sessions[sid := h], connections, st.sockets[ws := s], st.sent[ws := [Ready]],
            ptys, st.ptyLog[h := [Spawn(SpawnCols, SpawnRows)]], h + 1);
    } else {
      var s := Socket(sid, None, true);
      JoinKeepsMembership(st.connections, st.sockets, ws, s);
      NewSocketKeepsCapture(st.sockets, st.ptys, ws, s);
      InvOf(st.sessions, connections, st.sockets[ws := s], st.sent[ws := [Error(SpawnFailure)]], st.ptys, st.ptyLog, st.nextHandle);
    }
  }

  lemma DataKeepsInv(st: State, h: Handle, chunk: string)
    requires Inv(st) && h in st.ptys
    ensures Inv(DataStep(st, h, chunk))
  {
  }

  lemma ExitKeepsInv(st: State, h: Handle, exitCode: int, signal: Option<int>)
    requires Inv(st) && h in st.ptys && !st.ptys[h].exited
    ensures Inv(ExitStep(st, h, exitCode, signal))
  {
    var st' := ExitStep(st, h, exitCode, signal);
    forall h' | h' in st'.ptys && !st'.ptys[h'].exited
      ensures st'.ptys[h'].session in st'.sessions && st'.sessions[st'.ptys[h'].session] == h'
    {
      assert st.sessions[st.ptys[h'].session] == h';
    }
  }

  lemma ReceiveKeepsInv(st: State, ws: Conn, frame: Frame, resizeOk: bool)
    requires Inv(st)
    ensures Inv(ReceiveStep(st, ws, frame, resizeOk))
  {
  }

  lemma CloseKeepsInv(st: State, ws: Conn)
    requires Inv(st)
    ensures Inv(CloseStep(st, ws))
  {
    if ws in st.sockets {
      var s := st.sockets[ws];
      var sockets := st.sockets[ws := s.(open := false)];
      LeaveKeepsMembership(st.connections, st.sockets, ws);
      assert CaptureOk(sockets, st.ptys) by {
        NewSocketKeepsCapture(st.sockets, st.ptys, ws, s.(open := false));
      }
      if s.captured.Some? {
        InvOf(st.sessions, st.connections[s.session := Members(st.connections, s.session) - {ws}], sockets,
              st.sent, st.ptys, st.ptyLog, st.nextHandle);
      } else {
        InvOf(st.sessions, st.connections, sockets, st.sent, st.ptys, st.ptyLog, st.nextHandle);
      }
    }
  }

  lemma ShutdownKeepsInv(st: State)
    requires Inv(st)
    ensures Inv(ShutdownStep(st))
  {
  }

  // ---------------------------------------------------------------------
  // What the source promises, stated on the steps.

  /** No session id ever has two live PTYs. */
  lemma LivePtyUnique(st: State, h1: Handle, h2: Handle)
    requires Inv(st)
    requires h1 in st.ptys && h2 in st.ptys && !st.ptys[h1].exited && !st.ptys[h2].exited
    requires st.ptys[h1].session == st.ptys[h2].session
    ensures h1 == h2
  {
  }

  /** Connecting to an id that has a PTY spawns nothing: the socket captures
      that PTY and gets `ready`. */
  lemma ConnectReusesPty(st: State, ws: Conn, query: Option<string>, spawnOk: bool)
    requires Inv(st) && ws !in st.sockets && SessionIdOf(query) in st.sessions
    ensures var st' := ConnectStep(st, ws, query, spawnOk);
      && st'.ptys == st.ptys && st'.sessions == st.sessions && st'.nextHandle == st.nextHandle
      && st'.sockets[ws].captured == Some(st.sessions[SessionIdOf(query)])
      && st'.sent[ws] == [Ready]
  {
  }

  /** Two connections to an id without a PTY: the first spawns one PTY and the
      second joins it, whatever the second spawn would have done. */
  lemma NoDoubleSpawn(st: State, a: Conn, b: Conn, query: Option<string>, spawnOkB: bool)
    requires Inv(st) && a != b && a !in st.sockets && b !in st.sockets
    requires SessionIdOf(query) !in st.sessions
    ensures var st' := ConnectStep(ConnectStep(st, a, query, true), b, query, spawnOkB);
      && st'.nextHandle == st.nextHandle + 1
      && st'.ptys.Keys == st.ptys.Keys + {st.nextHandle}
      && st'.sockets[a].captured == st'.sockets[b].captured == Some(st.nextHandle)
      && {a, b} <= st'.connections[SessionIdOf(query)]
  {
  }

  /** A failed spawn: the socket gets only `error`, the id gets no PTY, and the
      socket is in the set of its id. */
  lemma SpawnFailureKeepsSocket(st: State, ws: Conn, query: Option<string>)
    requires Inv(st) && ws !in st.sockets && SessionIdOf(query) !in st.sessions
    ensures var st' := ConnectStep(st, ws, query, false);
      && st'.sent[ws] == [Error(SpawnFailure)]
      && st'.sessions == st.sessions && st'.ptys == st.ptys
      && ws in st'.connections[SessionIdOf(query)]
      && st'.sockets[ws].captured.None?
  {
  }

  /** A socket whose spawn failed never leaves its set, even after it closes. */
  lemma FailedSocketNeverLeaves(st: State, ws: Conn, c: Conn)
    requires Inv(st) && ws in st.sockets && st.sockets[ws].captured.None?
    ensures ws in CloseStep(st, c).connections[st.sockets[ws].session]
  {
  }

  /** Output reaches exactly the open members of the PTY's id, one frame each,
      at the end of their logs; no set changes. */
  lemma DataFansOut(st: State, h: Handle, chunk: string, c: Conn)
    requires Inv(st) && h in st.ptys && c in st.sockets
    ensures var st' := DataStep(st, h, chunk);
      && st'.connections == st.connections && st'.sockets == st.sockets
      && (c in Members(st.connections, st.ptys[h].session) && st.sockets[c].open ==> st'.sent[c] == st.sent[c] + [Data(chunk)])
      && (!(c in Members(st.connections, st.ptys[h].session) && st.sockets[c].open) ==> st'.sent[c] == st.sent[c])
  {
  }

  /** An exit reaches exactly the open members of the PTY's id, one `exit`
      frame each, at the end of their logs; the id loses its PTY, and no set,
      socket or PTY log changes. */
  lemma ExitFansOut(st: State, h: Handle, code: int, signal: Option<int>, c: Conn)
    requires Inv(st) && h in st.ptys && c in st.sockets
    ensures var st' := ExitStep(st, h, code, signal);
      && st'.connections == st.connections && st'.sockets == st.sockets && st'.ptyLog == st.ptyLog
      && st.ptys[h].session !in st'.sessions
      && (c in Members(st.connections, st.ptys[h].session) && st.sockets[c].open ==> st'.sent[c] == st.sent[c] + [Exit(code, signal)])
      && (!(c in Members(st.connections, st.ptys[h].session) && st.sockets[c].open) ==> st'.sent[c] == st.sent[c])
  {
  }

  /** Connecting to an id without a PTY, with a spawn that succeeds: a fresh
      80x24 PTY is registered for the id, the socket captures it and gets
      `ready`, and no earlier PTY or registration changes. */
  lemma ConnectSpawnsFresh(st: State, ws: Conn, query: Option<string>)
    requires Inv(st) && ws !in st.sockets && SessionIdOf(query) !in st.sessions
    ensures var st' := ConnectStep(st, ws, query, true);
      var sid, h := SessionIdOf(query), st.nextHandle;
      && h !in st.ptys && st'.nextHandle == h + 1
      && st'.sessions == st.sessions[sid := h]
      && st'.ptys == st.ptys[h := Pty(sid, false)]
      && st'.ptyLog == st.ptyLog[h := [Spawn(80, 24)]]
      && st'.sockets[ws] == Socket(sid, Some(h), true)
      && st'.sent[ws] == [Ready]
      && st'.connections[sid] == Members(st.connections, sid) + {ws}
  {
  }

  /** A close takes only the closing socket out of its id's set, and only when
      its close handler was attached; every other set, every other socket and
      every send log are unchanged. */
  lemma CloseDetachesOnlyItself(st: State, ws: Conn)
    requires Inv(st) && ws in st.sockets
    ensures var s, st' := st.sockets[ws], CloseStep(st, ws);
      && st'.sockets == st.sockets[ws := s.(open := false)]
      && (s.captured.Some? ==> st'.connections == st.connections[s.session := Members(st.connections, s.session) - {ws}])
      && (s.captured.None? ==> st'.connections == st.connections)
      && (forall sid :: sid != s.session ==> Members(st'.connections, sid) == Members(st.connections, sid))
      && st'.sent == st.sent
  {
  }

  /** Closing one socket does not stop output to another open member. */
  lemma DetachIsolation(st: State, a: Conn, b: Conn, h: Handle, chunk: string)
    requires Inv(st) && h in st.ptys && a != b
    requires b in Receivers(st.connections, st.sockets, st.ptys[h].session)
    ensures var st' := DataStep(CloseStep(st, a), h, chunk);
      st'.sent[b] == st.sent[b] + [Data(chunk)]
  {
    var st1 := CloseStep(st, a);
    assert b in Receivers(st1.connections, st1.sockets, st.ptys[h].session);
  }

  /** Close is idempotent and never touches a PTY or a session. */
  lemma CloseIdempotent(st: State, ws: Conn)
    ensures CloseStep(CloseStep(st, ws), ws) == CloseStep(st, ws)
    ensures CloseStep(st, ws).sessions == st.sessions && CloseStep(st, ws).ptys == st.ptys
    ensures CloseStep(st, ws).ptyLog == st.ptyLog
  {
    if ws in st.sockets {
      var s := st.sockets[ws];
      var st1 := CloseStep(st, ws);
      var s1 := st1.sockets[ws];
      assert s1 == s.(open := false) && s1.(open := false) == s1;
      assert st1.sockets[ws := s1] == st1.sockets;
      if s.captured.Some? {
        var once := Members(st.connections, s.session) - {ws};
        assert Members(st1.connections, s.session) == once;
        assert once - {ws} == once;
        assert st1.connections[s.session := once] == st1.connections;
      }
    }
  }

  /** After an exit the id has no PTY, its set is kept, and the next successful
      connection spawns a fresh PTY for the id. */
  lemma ExitThenRespawn(st: State, h: Handle, code: int, signal: Option<int>, ws: Conn, query: Option<string>)
    requires Inv(st) && h in st.ptys && !st.ptys[h].exited && ws !in st.sockets
    requires SessionIdOf(query) == st.ptys[h].session
    ensures var st1 := ExitStep(st, h, code, signal);
      && SessionIdOf(query) !in st1.sessions
      && st1.connections == st.connections
      && var st2 := ConnectStep(st1, ws, query, true);
         && st2.sessions[SessionIdOf(query)] == st.nextHandle != h
         && st2.sockets[ws].captured == Some(st.nextHandle)
  {
  }

  /** Input a socket sends goes to the PTY it captured and to no other, even
      when its id has since spawned another PTY. */
  lemma InputGoesToCapturedPty(st: State, ws: Conn, data: string)
    requires Inv(st) && ws in st.sockets && st.sockets[ws].captured.Some?
    ensures var h := st.sockets[ws].captured.value;
      var st' := ReceiveStep(st, ws, Message("input", data, None, None), true);
      && st'.ptyLog[h] == st.ptyLog[h] + [Write(data)]
      && (forall h' :: h' in st.ptyLog && h' != h ==> st'.ptyLog[h'] == st.ptyLog[h'])
  {
  }

  /** A frame of type `data` (the type the per-connection server reads) does
      nothing here, and neither does an unparsable frame. */
  lemma DataFrameIgnored(st: State, ws: Conn, data: string, resizeOk: bool)
    ensures ReceiveStep(st, ws, Message("data", data, None, None), resizeOk) == st
    ensures ReceiveStep(st, ws, Malformed, resizeOk) == st
  {
  }

  /** The quirk of a re-spawned session: a socket joined before the exit gets
      the output of the new PTY, while its input still goes to the old one. */
  lemma RespawnScenario()
    ensures var st1 := ConnectStep(Initial(), 0, Some("s1"), true);
      var st2 := ExitStep(st1, 0, 0, None);
      var st3 := ConnectStep(st2, 1, Some("s1"), true);
      var st4 := DataStep(st3, 1, "hi");
      var st5 := ReceiveStep(st4, 0, Message("input", "ls\r", None, None), true);
      && st5.sent[0] == [Ready, Exit(0, None), Data("hi")]
      && st5.sent[1] == [Ready, Data("hi")]
      && st5.ptyLog[0] == [Spawn(80, 24), Write("ls\r")]
      && st5.ptyLog[1] == [Spawn(80, 24)]
  {
    var st3 := RespawnScenarioSetup();
    var st4 := DataStep(st3, 1, "hi");
    assert Receivers(st3.connections, st3.sockets, "s1") == {0, 1};
    assert st4.ptyLog == st3.ptyLog && st4.sockets == st3.sockets;
  }

  /** The first three steps of the scenario: the second socket reaches the
      fresh PTY 1 while the first still holds the exited PTY 0. */
  lemma RespawnScenarioSetup() returns (st3: State)
    ensures st3 == ConnectStep(ExitStep(ConnectStep(Initial(), 0, Some("s1"), true), 0, 0, None), 1, Some("s1"), true)
    ensures st3.ptys[1].session == "s1" && st3.connections["s1"] == {0, 1}
    ensures st3.sockets.Keys == {0, 1} && st3.sockets[0] == Socket("s1", Some(0), true) && st3.sockets[1] == Socket("s1", Some(1), true)
    ensures st3.sent.Keys == {0, 1} && st3.sent[0] == [Ready, Exit(0, None)] && st3.sent[1] == [Ready]
    ensures st3.ptyLog.Keys == {0, 1} && st3.ptyLog[0] == [Spawn(80, 24)] && st3.ptyLog[1] == [Spawn(80, 24)]
  {
    var st1 := ConnectStep(Initial(), 0, Some("s1"), true);
    assert Receivers(st1.connections, st1.sockets, "s1") == {0};
    var st2 := ExitStep(st1, 0, 0, None);
    assert st2.sessions == map[];
    st3 := ConnectStep(st2, 1, Some("s1"), true);
  }

  // ---------------------------------------------------------------------
  // The server object: the source's module-level maps as fields, each
  // handler a method that performs its step in place.

  class Server {
    var sessions: map<SessionId, Handle>
    var connections: map<SessionId, set<Conn>>
    var sockets: map<Conn, Socket>
    var sent: map<Conn, seq<ServerMsg>>
    var ptys: map<Handle, Pty>
    var ptyLog: map<Handle, seq<PtyOp>>
    var nextHandle: Handle

    function Snapshot(): State
      reads this
    {
      State(sessions, connections, sockets, sent, ptys, ptyLog, nextHandle)
    }

    ghost predicate Valid()
      reads this
    {
      Inv(Snapshot())
    }

    constructor ()
      ensures Valid() && Snapshot() == Initial()
    {
      sessions, connections, sockets, sent := map[], map[], map[], map[];
      ptys, ptyLog, nextHandle := map[], map[], 0;
      InitialInv();
    }

    method Connect(ws: Conn, query: Option<string>, spawnOk: bool)
      requires Valid() && ws !in sockets
      modifies this
      ensures Snapshot() == ConnectStep(old(Snapshot()), ws, query, spawnOk)
      ensures Valid()
    {
      ConnectKeepsInv(Snapshot(), ws, query, spawnOk);
      var sid := SessionIdOf(query);
      if sid in sessions {
        Join(ws, sid, Some(sessions[sid]), Ready);
      } else if spawnOk {
        var pty := SpawnPty(sid);
        Join(ws, sid, Some(pty), Ready);
      } else {
        Join(ws, sid, None, Error(SpawnFailure));
      }
    }

    /** The socket joins the set of `sid` (creating it), is recorded with the
        PTY it captured, and is sent its first frame. */
    method Join(ws: Conn, sid: SessionId, captured: Option<Handle>, greeting: ServerMsg)
      modifies this`connections, this`sockets, this`sent
      ensures connections == old(connections)[sid := Members(old(connections), sid) + {ws}]
      ensures sockets == old(sockets)[ws := Socket(sid, captured, true)]
      ensures sent == old(sent)[ws := [greeting]]
    {
      var members := if sid in connections then connections[sid] else {};
      connections := connections[sid := members + {ws}];
      sockets, sent := sockets[ws := Socket(sid, captured, true)], sent[ws := [greeting]];
    }

    /** `pty.spawn` succeeded: a fresh 80x24 PTY registered for `sid`. */
    method SpawnPty(sid: SessionId) returns (pty: Handle)
      modifies this`sessions, this`ptys, this`ptyLog, this`nextHandle
      ensures pty == old(nextHandle) && nextHandle == pty + 1
      ensures sessions == old(sessions)[sid := pty]
      ensures ptys == old(ptys)[pty := Pty(sid, false)]
      ensures ptyLog == old(ptyLog)[pty := [Spawn(SpawnCols, SpawnRows)]]
    {
      pty := nextHandle;
      ptys, ptyLog := ptys[pty := Pty(sid, false)], ptyLog[pty := [Spawn(SpawnCols, SpawnRows)]];
      sessions, nextHandle := sessions[sid := pty], nextHandle + 1;
    }

    /** The `forEach` over the set of `sid`: send `m` to each open socket. */
    method Broadcast(sid: SessionId, m: ServerMsg)
      requires Members(connections, sid) <= sockets.Keys == sent.Keys
      modifies this`sent
      ensures sent == AppendAt(old(sent), Receivers(connections, sockets, sid), m)
    {
      var targets := if sid in connections then connections[sid] else {};
      var remaining := targets;
      ghost var done: set<Conn> := {};
      while remaining != {}
        invariant remaining <= targets
        invariant done <= targets - remaining
        invariant forall c :: c in targets - remaining ==> (c in done <==> sockets[c].open)
        invariant sent == AppendAt(old(sent), done, m)
        decreases remaining
      {
        var c :| c in remaining;
        if sockets[c].open {
          AppendAtStep(old(sent), done, c, m);
          sent := sent[c := sent[c] + [m]];
          done := done + {c};
        }
        remaining := remaining - {c};
      }
      assert done == Receivers(connections, sockets, sid);
    }

    method PtyData(h: Handle, chunk: string)
      requires Valid() && h in ptys
      modifies this`sent
      ensures Snapshot() == DataStep(old(Snapshot()), h, chunk)
      ensures Valid()
    {
      DataKeepsInv(Snapshot(), h, chunk);
      MembersAreSockets(Snapshot(), ptys[h].session);
      Broadcast(ptys[h].session, Data(chunk));
    }

    method PtyExit(h: Handle, exitCode: int, signal: Option<int>)
      requires Valid() && h in ptys && !ptys[h].exited
      modifies this`sessions, this`ptys, this`sent
      ensures Snapshot() == ExitStep(old(Snapshot()), h, exitCode, signal)
      ensures Valid()
    {
      ExitKeepsInv(Snapshot(), h, exitCode, signal);
      var sid := ptys[h].session;
      MembersAreSockets(Snapshot(), sid);
      sessions := sessions - {sid};
      ptys := ptys[h := Pty(sid, true)];
      Broadcast(sid, Exit(exitCode, signal));
    }

    method Receive(ws: Conn, frame: Frame, resizeOk: bool)
      requires Valid()
      modifies this`ptyLog
      ensures Snapshot() == ReceiveStep(old(Snapshot()), ws, frame, resizeOk)
      ensures Valid()
    {
      ReceiveKeepsInv(Snapshot(), ws, frame, resizeOk);
      if ws in sockets && sockets[ws].captured.Some? {
        var pty := sockets[ws].captured.value;
        match Dispatch(frame, resizeOk)
        case Some(op) =>
          if pty in ptyLog {
            ptyLog := ptyLog[pty := ptyLog[pty] + [op]];
          }
        case None =>
      }
    }

    method Close(ws: Conn)
      requires Valid()
      modifies this`sockets, this`connections
      ensures Snapshot() == CloseStep(old(Snapshot()), ws)
      ensures Valid()
    {
      CloseKeepsInv(Snapshot(), ws);
      if ws in sockets {
        var s := sockets[ws];
        sockets := sockets[ws := s.(open := false)];
        if s.captured.Some? {
          var members := if s.session in connections then connections[s.session] else {};
          connections := connections[s.session := members - {ws}];
        }
      }
    }

    /** The SIGINT handler: every PTY in `sessions` is killed. */
    method Shutdown()
      requires Valid()
      modifies this`ptyLog
      ensures Snapshot() == ShutdownStep(old(Snapshot()))
      ensures Valid()
    {
      ShutdownKeepsInv(Snapshot());
      KillAll(sessions.Values);
    }

    /** The SIGINT loop: `kill()` each PTY of `targets`, once. */
    method KillAll(targets: set<Handle>)
      requires targets <= ptyLog.Keys
      modifies this`ptyLog
      ensures ptyLog == AppendAt(old(ptyLog), targets, Kill)
    {
      var remaining := targets;
      while remaining != {}
        invariant remaining <= targets
        invariant ptyLog == AppendAt(old(ptyLog), targets - remaining, Kill)
        decreases remaining
      {
        var h :| h in remaining;
        AppendAtStep(old(ptyLog), targets - remaining, h, Kill);
        ptyLog := ptyLog[h := ptyLog[h] + [Kill]];
        assert targets - (remaining - {h}) == (targets - remaining) + {h};
        remaining := remaining - {h};
      }
    }
  }
}
