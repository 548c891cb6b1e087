/**
 * Attach/spawn orchestration (src/server/spawn.ts): issuing a session id, choosing between
 * reattaching an existing session and spawning a new pty, and wiring one socket to one
 * session's pty with flow control, disposable per socket.
 */
module Relay {
  import opened Base
  import opened Transport
  import opened Registry

  type Byte = x: int | 0 <= x < 256

  /** Lower-case hexadecimal digit characters, as Node's `toString('hex')` writes them. */
  predicate IsHexDigit(c: char) {
    '0' <= c <= '9' || 'a' <= c <= 'f'
  }

  predicate IsHex(s: string) {
    forall i :: 0 <= i < |s| ==> IsHexDigit(s[i])
  }

  function HexDigit(n: int): (c: char)
    requires 0 <= n < 16
    ensures IsHexDigit(c)
  {
    if n < 10 then ('0' as int + n) as char else ('a' as int + n - 10) as char
  }

  function HexValue(c: char): (n: int)
    requires IsHexDigit(c)
    ensures 0 <= n < 16
    ensures HexDigit(n) == c
  {
    if c <= '9' then c as int - '0' as int else c as int - 'a' as int + 10
  }

  /** `Buffer.toString('hex')`: two digits per byte, high nibble first. */
  function Hex(bytes: seq<Byte>): (s: string)
    ensures |s| == 2 * |bytes|
    ensures IsHex(s)
  {
    if bytes == [] then ""
    else [HexDigit(bytes[0] / 16), HexDigit(bytes[0] % 16)] + Hex(bytes[1..])
  }

  /** Reads a hex string back into bytes; the inverse of Hex. */
  function Unhex(s: string): (bytes: seq<Byte>)
    requires |s| % 2 == 0 && IsHex(s)
    ensures |bytes| == |s| / 2
  {
    if s == [] then []
    else [HexValue(s[0]) * 16 + HexValue(s[1])] + Unhex(s[2..])
  }

  lemma {:induction false} UnhexHex(bytes: seq<Byte>)
    ensures Unhex(Hex(bytes)) == bytes
  {
    if bytes != [] {
      var b := bytes[0];
      var s := Hex(bytes);
      assert s[2..] == Hex(bytes[1..]);
      assert HexValue(s[0]) == b / 16 && HexValue(s[1]) == b % 16 by {
        HexDigitInverse(b / 16);
        HexDigitInverse(b % 16);
      }
      UnhexHex(bytes[1..]);
    }
  }

  lemma HexDigitInverse(n: int)
    requires 0 <= n < 16
    ensures HexValue(HexDigit(n)) == n
  {
  }

  /** `crypto.randomBytes(16).toString('hex')`, with the random bytes as input. */
  function GenerateSessionId(randomBytes: seq<Byte>): (id: string)
    requires |randomBytes| == 16
    ensures |id| == 32 && IsHex(id)
    ensures Unhex(id) == randomBytes
  {
    UnhexHex(randomBytes);
    Hex(randomBytes)
  }

  /** The argument vector passed to `/usr/bin/env`: `-S` is prepended when env is version 9 or later. */
  function EnvArgs(version: int, args: seq<string>): (cmd: seq<string>)
    ensures |cmd| == |args| + (if version >= 9 then 1 else 0)
    ensures cmd[|cmd| - |args|..] == args
    ensures version >= 9 ==> cmd[0] == "-S"
  {
    if version >= 9 then ["-S"] + args else args
  }

  /** The socket subscriptions one attachment registers, one per handled socket event. */
  function Wires(owner: object): set<Listener> {
    {Listener(ResizeEvent, owner), Listener(InputEvent, owner),
     Listener(DisconnectEvent, owner), Listener(CommitEvent, owner)}
  }

  /** The subscriptions a disconnect removes: every wire except the disconnect handler itself. */
  function TornDown(owner: object): set<Listener> {
    {Listener(ResizeEvent, owner), Listener(InputEvent, owner), Listener(CommitEvent, owner)}
  }

  /**
   * The closures of one `attachSocketToSession` call: the socket and session they capture,
   * and the frames handed to the socket's send buffer (`tinybuffer`) so far. The flow-control
   * counter lives in a collaborator whose answers are inputs of OnData and OnCommit.
   */
  class Wiring {
    const socket: Socket
    const session: Session
    const manager: SessionManager
    var sent: seq<string>

    constructor (socket: Socket, session: Session, manager: SessionManager)
      ensures this.socket == socket && this.session == session && this.manager == manager
      ensures sent == []
    {
      this.socket := socket;
      this.session := session;
      this.manager := manager;
      sent := [];
    }

    /**
     * Pty output: the chunk goes to the send buffer; `overHighWater` is what
     * `account(|chunk|)` answered, and the pty is paused exactly when it is true.
     */
    method OnData(chunk: string, overHighWater: bool)
      modifies this`sent, session.term`ops
      ensures sent == old(sent) + [chunk]
      ensures session.term.ops == old(session.term.ops) + (if overHighWater then [Pause] else [])
    {
      sent := sent + [chunk];
      if overHighWater {
        session.term.Perform(Pause);
      }
    }

    method OnResize(cols: int, rows: int)
      modifies session.term`ops
      ensures session.term.ops == old(session.term.ops) + [Resize(cols, rows)]
    {
      session.term.Perform(Resize(cols, rows));
    }

    method OnInput(input: string)
      modifies session.term`ops
      ensures session.term.ops == old(session.term.ops) + [Write(input)]
    {
      session.term.Perform(Write(input));
    }

    /** A client acknowledgment; `belowHighWater` is what `commit(size)` answered. */
    method OnCommit(size: int, belowHighWater: bool)
      modifies session.term`ops
      ensures session.term.ops == old(session.term.ops) + (if belowHighWater then [Resume] else [])
    {
      if belowHighWater {
        session.term.Perform(Resume);
      }
    }

    /**
     * Socket teardown: removes the pty data listener and the resize, input and commit
     * listeners, then detaches the session. The pty is not killed and the disconnect
     * listener itself stays registered.
     */
    method OnDisconnect(now: int)
      requires manager.Valid()
      modifies session.term`dataListeners, socket`listeners, manager`sessions
      ensures manager.Valid()
      ensures session.term.dataListeners == old(session.term.dataListeners) - {this}
      ensures socket.listeners == old(socket.listeners) - TornDown(this)
      ensures manager.sessions == Detached(old(manager.sessions), session.id, now)
      ensures manager.kills == old(manager.kills) && session.term.ops == old(session.term.ops)
      ensures old(manager.Owned()) ==> manager.Owned()
    {
      session.term.RemoveDataListener(this);
      socket.Off(Listener(ResizeEvent, this));
      socket.Off(Listener(InputEvent, this));
      socket.Off(Listener(CommitEvent, this));
      manager.DetachSocket(session.id, now);
    }
  }

  /**
   * Marks the session attached, emits `login`, then registers the pty data listener and the
   * four socket listeners of a fresh attachment.
   */
  method AttachSocketToSession(manager: SessionManager, socket: Socket, session: Session, now: int)
    returns (w: Wiring)
    requires manager.Valid()
    modifies manager`sessions, socket`emitted, socket`listeners, session.term`dataListeners
    ensures manager.Valid()
    ensures fresh(w) && w.socket == socket && w.session == session && w.manager == manager && w.sent == []
    ensures manager.sessions == Attached(old(manager.sessions), session.id, now)
    ensures socket.emitted == old(socket.emitted) + [Login]
    ensures socket.listeners == old(socket.listeners) + Wires(w)
    ensures session.term.dataListeners == old(session.term.dataListeners) + {w}
    ensures old(manager.Owned()) ==> manager.Owned()
  {
    var attached := manager.AttachSocket(session.id, now);
    socket.Emit(Login);
    w := new Wiring(socket, session, manager);
    session.term.AddDataListener(w);
    Wire(socket, w);
  }

  /** Registers the `resize`, `input`, `disconnect` and `commit` listeners of `w`. */
  method Wire(socket: Socket, w: Wiring)
    modifies socket`listeners
    ensures socket.listeners == old(socket.listeners) + Wires(w)
  {
    socket.On(Listener(ResizeEvent, w));
    socket.On(Listener(InputEvent, w));
    socket.On(Listener(DisconnectEvent, w));
    socket.On(Listener(CommitEvent, w));
  }

  /**
   * `spawn`: with an existing session, reattach it and re-announce its id; otherwise start a
   * new pty (`ptyFails` says whether node-pty threw), register it under a fresh id built from
   * `randomBytes`, attach, and announce that id. `version` is what `envVersionOr(0)` gave.
   */
  method Spawn(manager: SessionManager, socket: Socket, args: seq<string>, existing: Option<Session>,
               version: int, randomBytes: seq<Byte>, ptyFails: bool, now: int)
    returns (r: Option<Wiring>)
    requires manager.Valid()
    requires |randomBytes| == 16
    modifies manager`sessions, socket`emitted, socket`listeners
    modifies if existing.Some? then {existing.value.term} else {}
    ensures manager.Valid()
    ensures old(manager.Owned()) ==> manager.Owned()
    ensures existing.Some? ==>
      && r.Some? && fresh(r.value) && r.value.session == existing.value
      && r.value.socket == socket && r.value.manager == manager
      && manager.sessions == Attached(old(manager.sessions), existing.value.id, now)
      && socket.emitted == old(socket.emitted) + [Login, SessionIdMsg(existing.value.id)]
      && socket.listeners == old(socket.listeners) + Wires(r.value)
      && existing.value.term.dataListeners == old(existing.value.term.dataListeners) + {r.value}
      && existing.value.term.ops == old(existing.value.term.ops)
    ensures existing.None? && ptyFails ==>
      && r.None?
      && manager.sessions == old(manager.sessions)
      && socket.emitted == old(socket.emitted)
      && socket.listeners == old(socket.listeners)
    ensures existing.None? && !ptyFails ==>
      var id := GenerateSessionId(randomBytes);
      && r.Some? && fresh(r.value) && fresh(r.value.session.term)
      && r.value.socket == socket && r.value.manager == manager
      && r.value.session == Session(id, r.value.session.term, now, true, args, Address(args))
      && r.value.session.term.command == EnvArgs(version, args)
      && r.value.session.term.dataListeners == {r.value}
      && r.value.session.term.ops == []
      && manager.sessions == old(manager.sessions)[id := r.value.session]
      && socket.emitted == old(socket.emitted) + [Login, SessionIdMsg(id)]
      && socket.listeners == old(socket.listeners) + Wires(r.value)
  {
    if existing.Some? {
      var w := Reuse(manager, socket, existing.value, now);
      return Some(w);
    }
    if ptyFails {
      return None;
    }
    var id := GenerateSessionId(randomBytes);
    var cmd := EnvArgs(version, args);
    var w := Launch(manager, socket, id, args, cmd, now);
    r := Some(w);
  }

  /** The `existing` branch of `spawn`: reattach the socket and re-announce the session id. */
  method Reuse(manager: SessionManager, socket: Socket, session: Session, now: int) returns (w: Wiring)
    requires manager.Valid()
    modifies manager`sessions, socket`emitted, socket`listeners, session.term`dataListeners
    ensures manager.Valid()
    ensures old(manager.Owned()) ==> manager.Owned()
    ensures fresh(w) && w.socket == socket && w.session == session && w.manager == manager
    ensures manager.sessions == Attached(old(manager.sessions), session.id, now)
    ensures socket.emitted == old(socket.emitted) + [Login, SessionIdMsg(session.id)]
    ensures socket.listeners == old(socket.listeners) + Wires(w)
    ensures session.term.dataListeners == old(session.term.dataListeners) + {w}
  {
    w := AttachSocketToSession(manager, socket, session, now);
    socket.Emit(SessionIdMsg(session.id));
    Regroup(old(socket.emitted), [Login], [SessionIdMsg(session.id)]);
  }

  /** The new-session branch of `spawn` once node-pty has started the process. */
  method Launch(manager: SessionManager, socket: Socket, id: string, args: seq<string>,
                cmd: seq<string>, now: int) returns (w: Wiring)
    requires manager.Valid()
    modifies manager`sessions, socket`emitted, socket`listeners
    ensures manager.Valid()
    ensures old(manager.Owned()) ==> manager.Owned()
    ensures
      && fresh(w) && fresh(w.session.term)
      && w.socket == socket && w.manager == manager
      && w.session == Session(id, w.session.term, now, true, args, Address(args))
      && w.session.term.command == cmd
      && w.session.term.dataListeners == {w}
      && w.session.term.ops == []
      && manager.sessions == old(manager.sessions)[id := w.session]
      && socket.emitted == old(socket.emitted) + [Login, SessionIdMsg(id)]
      && socket.listeners == old(socket.listeners) + Wires(w)
  {
    var term := new Pty(cmd);
    assert term !in manager.Terms() && manager.kills[term] == 0;
    var session := manager.CreateSession(id, term, args, now);
    w := AttachSocketToSession(manager, socket, session, now);
    AttachRegistered(old(manager.sessions), session, now);
    socket.Emit(SessionIdMsg(id));
    Regroup(old(socket.emitted), [Login], [SessionIdMsg(id)]);
  }
}
