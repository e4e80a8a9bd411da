/** The per-connection terminal server of server.js and server/index.js (the
    two files carry the same `handleWebSocket`).

    Every connection spawns its own 80x24 PTY and registers it in `terminals`
    under the connection's session id, so a second connection to an id
    replaces the first one's entry. A PTY's output and exit go only to the
    socket that spawned it. On close a socket kills whatever PTY `terminals`
    holds for its id, and an exit deletes the id's entry, whichever PTY it
    holds. Spawning and writing are taken not to throw; resize may throw, and
    the handler swallows the error. */
module TerminalServer {
  import opened Common
  import opened TerminalProtocol

  /** An accepted socket: its session id, the PTY its handlers close over, and
      whether it is OPEN. */
  datatype Socket = Socket(session: SessionId, pty: Handle, open: bool)

  /** A spawned PTY: its session id, the socket its callbacks send to, and
      whether it has exited. */
  datatype Pty = Pty(session: SessionId, owner: Conn, exited: bool)

  datatype State = State(
    terminals: map<SessionId, Handle>,
    sockets: map<Conn, Socket>,
    sent: map<Conn, seq<ServerMsg>>,
    ptys: map<Handle, Pty>,
    ptyLog: map<Handle, seq<PtyOp>>,
    nextHandle: Handle)

  function Initial(): State
  {
    State(map[], map[], map[], map[], map[], 0)
  }

  /** Sockets and PTYs pair up one to one: each socket's PTY is owned by it and
      carries its id. */
  ghost predicate PairingOk(sockets: map<Conn, Socket>, ptys: map<Handle, Pty>)
  {
    && (forall c :: c in sockets ==>
          sockets[c].pty in ptys && ptys[sockets[c].pty].owner == c && ptys[sockets[c].pty].session == sockets[c].session)
    && (forall h :: h in ptys ==> ptys[h].owner in sockets && sockets[ptys[h].owner].pty == h)
  }

  /** Handles are never reused, and `terminals` holds, for an id, a live PTY of
      that id spawned no earlier than any other PTY of the id. */
  ghost predicate RegistryOk(terminals: map<SessionId, Handle>, ptys: map<Handle, Pty>, nextHandle: Handle)
  {
    && (forall h :: h in ptys ==> h < nextHandle)
    && (forall sid :: sid in terminals ==>
          terminals[sid] in ptys && ptys[terminals[sid]].session == sid && !ptys[terminals[sid]].exited)
    && (forall sid, h :: sid in terminals && h in ptys && ptys[h].session == sid ==> h <= terminals[sid])
  }

  ghost predicate Inv(st: State)
  {
    && st.sockets.Keys == st.sent.Keys
    && st.ptys.Keys == st.ptyLog.Keys
    && PairingOk(st.sockets, st.ptys)
    && RegistryOk(st.terminals, st.ptys, st.nextHandle)
  }

  /** `wss.on('connection')` and the spawn in `handleWebSocket`: a fresh PTY for
      this socket, registered for the id over any earlier one. */
  function ConnectStep(st: State, ws: Conn, query: Option<string>): State
  {
    var sid := SessionIdOf(query);
    var h := st.nextHandle;
    State(st.terminals[sid := h],
          st.sockets[ws := Socket(sid, h, true)], st.sent[ws := []],
          st.ptys[h := Pty(sid, ws, false)], st.ptyLog[h := [Spawn(SpawnCols, SpawnRows)]], h + 1)
  }

  /** Appends `m` to the log of `c` when `c` is an OPEN socket. */
  function SendIfOpen(st: State, c: Conn, m: ServerMsg): map<Conn, seq<ServerMsg>>
  {
    if c in st.sockets && st.sockets[c].open && c in st.sent then st.sent[c := st.sent[c] + [m]] else st.sent
  }

  /** `terminal.onData`: the chunk goes to the PTY's own socket, if open. */
  function DataStep(st: State, h: Handle, chunk: string): State
    requires h in st.ptys
  {
    st.(sent := SendIfOpen(st, st.ptys[h].owner, Data(chunk)))
  }

  /** `terminal.onExit`: the id's entry is deleted, whichever PTY it holds, and
      the PTY's own socket, if open, gets `exit`. */
  function ExitStep(st: State, h: Handle, exitCode: int, signal: Option<int>): State
    requires h in st.ptys
  {
    var p := st.ptys[h];
    st.(terminals := st.terminals - {p.session},
        ptys := st.ptys[h := p.(exited := true)],
        sent := SendIfOpen(st, p.owner, Exit(exitCode, signal)))
  }

  /** The `switch` of `ws.on('message')`: `data` writes, `resize` resizes with
      80 and 24 standing in for a falsy size, unless the call throws; any other
      type, and a frame that does not parse, does nothing. */
  function Dispatch(frame: Frame, resizeOk: bool): (op: Option<PtyOp>)
    ensures op.Some? <==> (frame.Message? && (frame.kind == "data" || (frame.kind == "resize" && resizeOk)))
    ensures op.Some? && frame.kind == "data" ==> op.value == Write(frame.data)
    ensures op.Some? && frame.kind == "resize" ==>
      && op.value.Resize?
      && (Truthy(frame.cols) ==> op.value.cols == frame.cols.value)
      && (!Truthy(frame.cols) ==> op.value.cols == SpawnCols)
      && (Truthy(frame.rows) ==> op.value.rows == frame.rows.value)
      && (!Truthy(frame.rows) ==> op.value.rows == SpawnRows)
  {
    match frame
    case Malformed => None
    case Message(kind, data, cols, rows) =>
      if kind == "data" then Some(Write(data))
      else if kind == "resize" && resizeOk then Some(Resize(NumberOr(cols, SpawnCols), NumberOr(rows, SpawnRows)))
      else None
  }

  /** `ws.on('message')`: the frame acts on the socket's own PTY. */
  function ReceiveStep(st: State, ws: Conn, frame: Frame, resizeOk: bool): State
  {
    if ws in st.sockets && st.sockets[ws].pty in st.ptyLog && Dispatch(frame, resizeOk).Some? then
      var h := st.sockets[ws].pty;
      st.(ptyLog := st.ptyLog[h := st.ptyLog[h] + [Dispatch(frame, resizeOk).value]])
    else st
  }

  /** `ws.on('close')` (it fires once): the socket stops being OPEN, and the PTY
      `terminals` holds for its id, if any, is killed and unregistered. */
  function CloseStep(st: State, ws: Conn): State
  {
    if ws in st.sockets && st.sockets[ws].open then
      var s := st.sockets[ws];
      var sockets := st.sockets[ws := s.(open := false)];
      if s.session in st.terminals && st.terminals[s.session] in st.ptyLog then
        var h := st.terminals[s.session];
        st.(sockets := sockets, terminals := st.terminals - {s.session},
            ptyLog := st.ptyLog[h := st.ptyLog[h] + [Kill]])
      else st.(sockets := sockets)
    else st
  }

  // ---------------------------------------------------------------------
  // Every step keeps the invariant.

  lemma InitialInv()
    ensures Inv(Initial())
  {
  }

  /** A new socket paired with a fresh PTY. */
  lemma NewPairKeepsPairing(sockets: map<Conn, Socket>, ptys: map<Handle, Pty>, ws: Conn, h: Handle, sid: SessionId)
    requires PairingOk(sockets, ptys) && ws !in sockets && h !in ptys
    ensures PairingOk(sockets[ws := Socket(sid, h, true)], ptys[h := Pty(sid, ws, false)])
  {
    var sockets', ptys' := sockets[ws := Socket(sid, h, true)], ptys[h := Pty(sid, ws, false)];
    forall h' | h' in ptys'
      ensures ptys'[h'].owner in sockets' && sockets'[ptys'[h'].owner].pty == h'
    {
      if h' != h {
        assert ptys[h'].owner != ws;
      }
    }
  }

  /** A fresh handle becomes the id's newest PTY. */
  lemma SpawnKeepsRegistry(terminals: map<SessionId, Handle>, ptys: map<Handle, Pty>, nextHandle: Handle, sid: SessionId, ws: Conn)
    requires RegistryOk(terminals, ptys, nextHandle)
    ensures RegistryOk(terminals[sid := nextHandle], ptys[nextHandle := Pty(sid, ws, false)], nextHandle + 1)
  {
  }

  /** `Inv` from its parts, on a state given field by field. */
  lemma InvOf(terminals: map<SessionId, Handle>, sockets: map<Conn, Socket>, sent: map<Conn, seq<ServerMsg>>,
              ptys: map<Handle, Pty>, ptyLog: map<Handle, seq<PtyOp>>, nextHandle: Handle)
    requires sockets.Keys == sent.Keys && ptys.Keys == ptyLog.Keys
    requires PairingOk(sockets, ptys) && RegistryOk(terminals, ptys, nextHandle)
    ensures Inv(State(terminals, sockets, sent, ptys, ptyLog, nextHandle))
  {
  }

  lemma ConnectKeepsInv(st: State, ws: Conn, query: Option<string>)
    requires Inv(st) && ws !in st.sockets
    ensures Inv(ConnectStep(st, ws, query))
  {
    NewPairKeepsPairing(st.sockets, st.ptys, ws, st.nextHandle, SessionIdOf(query));
    SpawnKeepsRegistry(st.terminals, st.ptys, st.nextHandle, SessionIdOf(query), ws);
  }

  lemma DataKeepsInv(st: State, h: Handle, chunk: string)
    requires Inv(st) && h in st.ptys
    ensures Inv(DataStep(st, h, chunk))
  {
  }

  /** An exit marks one PTY and leaves its owner and id alone. */
  lemma ExitKeepsPairing(sockets: map<Conn, Socket>, ptys: map<Handle, Pty>, h: Handle)
    requires PairingOk(sockets, ptys) && h in ptys
    ensures PairingOk(sockets, ptys[h := ptys[h].(exited := true)])
  {
  }

  /** Unregistering the exited PTY's id keeps every other entry live. */
  lemma ExitKeepsRegistry(terminals: map<SessionId, Handle>, ptys: map<Handle, Pty>, nextHandle: Handle, h: Handle)
    requires RegistryOk(terminals, ptys, nextHandle) && h in ptys
    ensures RegistryOk(terminals - {ptys[h].session}, ptys[h := ptys[h].(exited := true)], nextHandle)
  {
    var terminals', ptys' := terminals - {ptys[h].session}, ptys[h := ptys[h].(exited := true)];
    forall sid | sid in terminals'
      ensures terminals'[sid] in ptys' && ptys'[terminals'[sid]].session == sid && !ptys'[terminals'[sid]].exited
    {
      assert terminals[sid] != h;
    }
  }

  lemma ExitKeepsInv(st: State, h: Handle, exitCode: int, signal: Option<int>)
    requires Inv(st) && h in st.ptys
    ensures Inv(ExitStep(st, h, exitCode, signal))
  {
    var p := st.ptys[h];
    ExitKeepsPairing(st.sockets, st.ptys, h);
    ExitKeepsRegistry(st.terminals, st.ptys, st.nextHandle, h);
    InvOf(st.terminals - {p.session}, st.sockets, SendIfOpen(st, p.owner, Exit(exitCode, signal)),
          st.ptys[h := p.(exited := true)], st.ptyLog, st.nextHandle);
  }

  lemma ReceiveKeepsInv(st: State, ws: Conn, frame: Frame, resizeOk: bool)
    requires Inv(st)
    ensures Inv(ReceiveStep(st, ws, frame, resizeOk))
  {
  }

  lemma CloseKeepsInv(st: State, ws: Conn)
    requires Inv(st)
    ensures Inv(CloseStep(st, ws))
  {
    if ws in st.sockets && st.sockets[ws].open {
      var s := st.sockets[ws];
      var sockets := st.sockets[ws := s.(open := false)];
      CloseKeepsPairing(st.sockets, st.ptys, ws);
      if s.session in st.terminals && st.terminals[s.session] in st.ptyLog {
        var h := st.terminals[s.session];
        UnregisterKeepsRegistry(st.terminals, st.ptys, st.nextHandle, s.session);
        InvOf(st.terminals - {s.session}, sockets, st.sent, st.ptys, st.ptyLog[h := st.ptyLog[h] + [Kill]], st.nextHandle);
      } else {
        InvOf(st.terminals, sockets, st.sent, st.ptys, st.ptyLog, st.nextHandle);
      }
    }
  }

  /** A socket that closes keeps its PTY. */
  lemma CloseKeepsPairing(sockets: map<Conn, Socket>, ptys: map<Handle, Pty>, ws: Conn)
    requires PairingOk(sockets, ptys) && ws in sockets
    ensures PairingOk(sockets[ws := sockets[ws].(open := false)], ptys)
  {
  }

  /** Dropping an entry of `terminals` keeps the others. */
  lemma UnregisterKeepsRegistry(terminals: map<SessionId, Handle>, ptys: map<Handle, Pty>, nextHandle: Handle, sid: SessionId)
    requires RegistryOk(terminals, ptys, nextHandle)
    ensures RegistryOk(terminals - {sid}, ptys, nextHandle)
  {
  }

  // ---------------------------------------------------------------------
  // What the source does, stated on the steps.

  /** Every connection spawns exactly one PTY, even for an id that has one;
      the earlier PTY stays alive but is no longer registered. */
  lemma ConnectAlwaysSpawns(st: State, ws: Conn, query: Option<string>)
    requires Inv(st) && ws !in st.sockets
    ensures var st' := ConnectStep(st, ws, query);
      && st'.nextHandle == st.nextHandle + 1
      && st'.ptys.Keys == st.ptys.Keys + {st.nextHandle} && st.nextHandle !in st.ptys
      && st'.terminals[SessionIdOf(query)] == st.nextHandle
      && st'.sent[ws] == []
      && st'.sockets[ws] == Socket(SessionIdOf(query), st.nextHandle, true)
      && st'.ptys[st.nextHandle] == Pty(SessionIdOf(query), ws, false)
      && st'.ptyLog[st.nextHandle] == [Spawn(80, 24)]
      && (forall h :: h in st.ptyLog ==> h in st'.ptyLog && st'.ptyLog[h] == st.ptyLog[h])
      && (SessionIdOf(query) in st.terminals ==>
            var old_ := st.terminals[SessionIdOf(query)];
            old_ in st'.ptys && !st'.ptys[old_].exited && old_ != st'.terminals[SessionIdOf(query)])
  {
  }

  /** Output is private: it reaches only the PTY's own socket, and only while
      that socket is open. */
  lemma DataIsPrivate(st: State, h: Handle, chunk: string, c: Conn)
    requires Inv(st) && h in st.ptys && c in st.sockets
    ensures var st' := DataStep(st, h, chunk);
      && (c == st.ptys[h].owner && st.sockets[c].open ==> st'.sent[c] == st.sent[c] + [Data(chunk)])
      && (c != st.ptys[h].owner || !st.sockets[c].open ==> st'.sent[c] == st.sent[c])
  {
  }

  /** An exit is private too: the `exit` frame reaches only the PTY's own
      socket, and only while that socket is open; no socket and no PTY log
      changes. */
  lemma ExitIsPrivate(st: State, h: Handle, code: int, signal: Option<int>, c: Conn)
    requires Inv(st) && h in st.ptys && c in st.sockets
    ensures var st' := ExitStep(st, h, code, signal);
      && st'.sockets == st.sockets && st'.ptyLog == st.ptyLog
      && (c == st.ptys[h].owner && st.sockets[c].open ==> st'.sent[c] == st.sent[c] + [Exit(code, signal)])
      && (c != st.ptys[h].owner || !st.sockets[c].open ==> st'.sent[c] == st.sent[c])
  {
  }

  /** Closing a socket kills the PTY that `terminals` holds for its id, which
      is another connection's PTY when that connection joined later; the
      closing socket's own PTY is left running. */
  lemma CloseKillsRegisteredPty(st: State, a: Conn)
    requires Inv(st) && a in st.sockets && st.sockets[a].open
    requires st.sockets[a].session in st.terminals
    ensures var sid := st.sockets[a].session;
      var h := st.terminals[sid];
      var st' := CloseStep(st, a);
      && st'.ptyLog[h] == st.ptyLog[h] + [Kill]
      && sid !in st'.terminals
      && (h != st.sockets[a].pty ==> st'.ptyLog[st.sockets[a].pty] == st.ptyLog[st.sockets[a].pty])
  {
  }

  /** Any exit deletes the id's entry, whichever PTY it holds. When the exiting
      PTY is a stale one (a later connection replaced it in `terminals`), the
      newer PTY loses its registration but keeps running: it has not exited,
      its log is unchanged, and its socket hears nothing of the stale exit. */
  lemma StaleExitUnregisters(st: State, h: Handle, exitCode: int, signal: Option<int>)
    requires Inv(st) && h in st.ptys && st.ptys[h].session in st.terminals
    ensures st.ptys[h].session !in ExitStep(st, h, exitCode, signal).terminals
    ensures st.terminals[st.ptys[h].session] in ExitStep(st, h, exitCode, signal).ptys
    ensures var newer, st' := st.terminals[st.ptys[h].session], ExitStep(st, h, exitCode, signal);
      newer != h ==>
        && !st'.ptys[newer].exited
        && st'.ptyLog[newer] == st.ptyLog[newer]
        && st'.sent[st.ptys[newer].owner] == st.sent[st.ptys[newer].owner]
  {
    var newer := st.terminals[st.ptys[h].session];
    if newer != h {
      assert st.sockets[st.ptys[newer].owner].pty == newer;
    }
  }

  /** A `resize` frame without sizes resizes the socket's own PTY to 80x24. */
  lemma ResizeDefaults(st: State, ws: Conn)
    requires Inv(st) && ws in st.sockets
    ensures var h := st.sockets[ws].pty;
      ReceiveStep(st, ws, Message("resize", "", None, Some(0)), true).ptyLog[h]
        == st.ptyLog[h] + [Resize(80, 24)]
  {
  }

  /** After a socket closes, nothing more is sent to it. */
  lemma ClosedSocketHearsNothing(st: State, ws: Conn, h: Handle, chunk: string)
    requires Inv(st) && ws in st.sockets && h in st.ptys
    ensures var st1 := CloseStep(st, ws);
      DataStep(st1, h, chunk).sent[ws] == st1.sent[ws] == st.sent[ws]
  {
  }

  /** Two sockets on one id; the first closes: the second one's PTY is killed
      and the first one's keeps running. */
  lemma KillsOtherConnectionsPty()
    ensures var st1 := ConnectStep(ConnectStep(Initial(), 0, Some("s")), 1, Some("s"));
      var st2 := CloseStep(st1, 0);
      && st2.ptyLog[1] == [Spawn(80, 24), Kill]
      && st2.ptyLog[0] == [Spawn(80, 24)]
      && st2.terminals == map[]
  {
    var st1 := ConnectStep(ConnectStep(Initial(), 0, Some("s")), 1, Some("s"));
    assert st1.terminals == map["s" := 1];
  }

  // ---------------------------------------------------------------------
  // The server object: `terminals` and the per-connection closures' state as
  // fields, each handler a method that performs its step in place.

  class Server {
    var terminals: map<SessionId, Handle>
    var sockets: map<Conn, Socket>
    var sent: map<Conn, seq<ServerMsg>>
    var ptys: map<Handle, Pty>
    var ptyLog: map<Handle, seq<PtyOp>>
    var nextHandle: Handle

    function Snapshot(): State
      reads this
    {
      State(terminals, sockets, sent, ptys, ptyLog, nextHandle)
    }

    ghost predicate Valid()
      reads this
    {
      Inv(Snapshot())
    }

    constructor ()
      ensures Valid() && Snapshot() == Initial()
    {
      terminals, sockets, sent := map[], map[], map[];
      ptys, ptyLog, nextHandle := map[], map[], 0;
      InitialInv();
    }

    method Connect(ws: Conn, query: Option<string>)
      requires Valid() && ws !in sockets
      modifies this
      ensures Snapshot() == ConnectStep(old(Snapshot()), ws, query)
      ensures Valid()
    {
      ConnectKeepsInv(Snapshot(), ws, query);
      var sid := SessionIdOf(query);
      var terminal := SpawnPty(sid, ws);
      terminals := terminals[sid := terminal];
      sockets, sent := sockets[ws := Socket(sid, terminal, true)], sent[ws := []];
    }

    /** `pty.spawn`: a fresh 80x24 PTY whose callbacks close over `ws`. */
    method SpawnPty(sid: SessionId, ws: Conn) returns (terminal: Handle)
      modifies this`ptys, this`ptyLog, this`nextHandle
      ensures terminal == old(nextHandle) && nextHandle == terminal + 1
      ensures ptys == old(ptys)[terminal := Pty(sid, ws, false)]
      ensures ptyLog == old(ptyLog)[terminal := [Spawn(SpawnCols, SpawnRows)]]
    {
      terminal := nextHandle;
      nextHandle := nextHandle + 1;
      ptys, ptyLog := ptys[terminal := Pty(sid, ws, false)], ptyLog[terminal := [Spawn(SpawnCols, SpawnRows)]];
    }

    method PtyData(h: Handle, chunk: string)
      requires Valid() && h in ptys
      modifies this`sent
      ensures Snapshot() == DataStep(old(Snapshot()), h, chunk)
      ensures Valid()
    {
      var ws := ptys[h].owner;
      if ws in sockets && sockets[ws].open && ws in sent {
        sent := sent[ws := sent[ws] + [Data(chunk)]];
      }
      DataKeepsInv(old(Snapshot()), h, chunk);
    }

    method PtyExit(h: Handle, exitCode: int, signal: Option<int>)
      requires Valid() && h in ptys
      modifies this
      ensures Snapshot() == ExitStep(old(Snapshot()), h, exitCode, signal)
      ensures Valid()
    {
      var p := ptys[h];
      terminals := terminals - {p.session};
      ptys := ptys[h := p.(exited := true)];
      if p.owner in sockets && sockets[p.owner].open && p.owner in sent {
        sent := sent[p.owner := sent[p.owner] + [Exit(exitCode, signal)]];
      }
      ExitKeepsInv(old(Snapshot()), h, exitCode, signal);
    }

    method Receive(ws: Conn, frame: Frame, resizeOk: bool)
      requires Valid()
      modifies this`ptyLog
      ensures Snapshot() == ReceiveStep(old(Snapshot()), ws, frame, resizeOk)
      ensures Valid()
    {
      if ws in sockets && sockets[ws].pty in ptyLog {
        var terminal := sockets[ws].pty;
        match Dispatch(frame, resizeOk)
        case Some(op) =>
          ptyLog := ptyLog[terminal := ptyLog[terminal] + [op]];
        case None =>
      }
      ReceiveKeepsInv(old(Snapshot()), ws, frame, resizeOk);
    }

    method Close(ws: Conn)
      requires Valid()
      modifies this`sockets, this`terminals, this`ptyLog
      ensures Snapshot() == CloseStep(old(Snapshot()), ws)
      ensures Valid()
    {
      CloseKeepsInv(Snapshot(), ws);
      if ws in sockets && sockets[ws].open {
        var s := sockets[ws];
        sockets := sockets[ws := s.(open := false)];
        KillRegistered(s.session);
      }
    }

    /** `terminals.get(sid)` is killed and deleted, when there is one. */
    method KillRegistered(sid: SessionId)
      modifies this`terminals, this`ptyLog
      ensures sid in old(terminals) && old(terminals)[sid] in old(ptyLog) ==>
        && terminals == old(terminals) - {sid}
        && ptyLog == old(ptyLog)[old(terminals)[sid] := old(ptyLog)[old(terminals)[sid]] + [Kill]]
      ensures !(sid in old(terminals) && old(terminals)[sid] in old(ptyLog)) ==>
        terminals == old(terminals) && ptyLog == old(ptyLog)
    {
      if sid in terminals && terminals[sid] in ptyLog {
        var terminal := terminals[sid];
        ptyLog := ptyLog[terminal := ptyLog[terminal] + [Kill]];
        terminals := terminals - {sid};
      }
    }
  }
}
