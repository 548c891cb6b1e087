/**
 * The socket.io `connection` handler of src/server.ts: reattach by handshake session id
 * before any authentication, otherwise tell a stale client to forget its id and run the
 * normal command-resolution flow.
 */
module Server {
  import opened Base
  import opened Transport
  import opened Registry
  import opened Relay

  /** One observable step of the connection handler, in the order it happens. */
  datatype Step =
    | GaugeInc
    | Lookup(id: string)
    | EmitClear
    | GetCommand
    | SpawnCall(args: seq<string>, existing: Option<string>)
    | GaugeDec

  /** What `getSession` answers for the handshake id, if the handshake carries a truthy one. */
  function Found(m: map<string, Session>, handshake: Option<string>, now: int): (r: Option<Session>)
    ensures r.Some? <==> Truthy(handshake) && handshake.value in m
    ensures r.Some? ==> r.value == m[handshake.value].(lastActivity := now)
  {
    if Truthy(handshake) && handshake.value in m then Some(m[handshake.value].(lastActivity := now)) else None
  }

  /** What the socket is told by one connection, `id` being the id a new session would get. */
  function ConnectionEmissions(handshake: Option<string>, found: Option<Session>,
                               command: Option<seq<string>>, ptyFails: bool, id: string): (r: seq<Emission>)
  {
    if Reattaches(handshake, found) then [Login, SessionIdMsg(handshake.value)]
    else ClearNotice(handshake, found) + Announcement(id, command, ptyFails)
  }

  /** `clear-session-id`, sent when a truthy handshake id is not in the registry. */
  function ClearNotice(handshake: Option<string>, found: Option<Session>): (r: seq<Emission>)
  {
    if Truthy(handshake) && found.None? then [ClearSessionId] else []
  }

  /** `login` and the new session's id, unless command resolution or the spawn threw. */
  function Announcement(id: string, command: Option<seq<string>>, ptyFails: bool): (r: seq<Emission>)
  {
    if command.None? || ptyFails then [] else [Login, SessionIdMsg(id)]
  }

  /** The pty of the session a truthy handshake id names, the only one the handler may touch. */
  function HitTerm(m: map<string, Session>, handshake: Option<string>): set<Pty> {
    if Truthy(handshake) && handshake.value in m then {m[handshake.value].term} else {}
  }

  /** The handshake carries an id that the registry lookup found. */
  predicate Reattaches(handshake: Option<string>, found: Option<Session>) {
    Truthy(handshake) && found.Some?
  }

  /** The handler throws: command resolution or the pty spawn failed. */
  predicate Fails(handshake: Option<string>, found: Option<Session>, command: Option<seq<string>>, ptyFails: bool) {
    !Reattaches(handshake, found) && (command.None? || ptyFails)
  }

  /**
   * The steps of one connection: `found` is what the lookup returned (ignored without a truthy
   * handshake id), `command` what `getCommand` resolved (None when it threw), `ptyFails`
   * whether `spawn` threw.
   */
  function ConnectionSteps(handshake: Option<string>, found: Option<Session>,
                           command: Option<seq<string>>, ptyFails: bool): (r: seq<Step>)
    ensures |r| >= 3 && r[0] == GaugeInc
  {
    [GaugeInc] + LookupSteps(handshake, found) +
    (if Reattaches(handshake, found) then [SpawnCall(found.value.args, Some(found.value.id))]
     else AuthSteps(command, ptyFails))
  }

  /** The registry check: look a truthy id up, and answer a miss with `clear-session-id`. */
  function LookupSteps(handshake: Option<string>, found: Option<Session>): (r: seq<Step>)
  {
    (if Truthy(handshake) then [Lookup(handshake.value)] else []) +
    (if Truthy(handshake) && found.None? then [EmitClear] else [])
  }

  /** The normal flow: resolve the command, spawn with it, and decrement the gauge if either throws. */
  function AuthSteps(command: Option<seq<string>>, ptyFails: bool): (r: seq<Step>)
    ensures 2 <= |r| <= 3 && r[0] == GetCommand
    ensures r[|r| - 1] == GaugeDec <==> command.None? || ptyFails
  {
    [GetCommand] + (if command.None? then [GaugeDec] else SpawnSteps(command.value, ptyFails))
  }

  /** The `spawn` of a new session, followed by the decrement of the `catch` when it throws. */
  function SpawnSteps(args: seq<string>, ptyFails: bool): seq<Step> {
    [SpawnCall(args, None)] + (if ptyFails then [GaugeDec] else [])
  }

  /** With a found session the handler spawns on it, skips authentication and never throws. */
  lemma ReattachSkipsAuthentication(handshake: Option<string>, found: Option<Session>,
                                    command: Option<seq<string>>, ptyFails: bool)
    requires Reattaches(handshake, found)
    ensures var r := ConnectionSteps(handshake, found, command, ptyFails);
      && SpawnCall(found.value.args, Some(found.value.id)) in r
      && GetCommand !in r && EmitClear !in r && GaugeDec !in r
  {
  }

  /** A stale id: the client is told to clear it, then authentication runs, then the spawn. */
  lemma StaleIdClearedFirst(handshake: Option<string>, command: Option<seq<string>>, ptyFails: bool)
    requires Truthy(handshake)
    ensures var r := ConnectionSteps(handshake, None, command, ptyFails);
      && r[2] == EmitClear && r[3] == GetCommand
      && (command.Some? ==> r[4] == SpawnCall(command.value, None))
      && forall i :: 0 <= i < |r| && r[i].SpawnCall? ==> r[i].existing.None?
  {
  }

  /** Without a truthy id nothing is looked up or cleared; authentication comes first. */
  lemma NoIdAuthenticates(handshake: Option<string>, found: Option<Session>,
                          command: Option<seq<string>>, ptyFails: bool)
    requires !Truthy(handshake)
    ensures var r := ConnectionSteps(handshake, found, command, ptyFails);
      && r[1] == GetCommand && EmitClear !in r
      && (forall i :: 0 <= i < |r| ==> !r[i].Lookup?)
      && (command.Some? ==> r[2] == SpawnCall(command.value, None))
  {
  }

  /** The gauge is decremented exactly when the handler throws, and then as its last step. */
  lemma DecrementOnlyOnFailure(handshake: Option<string>, found: Option<Session>,
                               command: Option<seq<string>>, ptyFails: bool)
    ensures var r := ConnectionSteps(handshake, found, command, ptyFails);
      && (GaugeDec in r <==> Fails(handshake, found, command, ptyFails))
      && (GaugeDec in r ==> r[|r| - 1] == GaugeDec && GaugeDec !in r[..|r| - 1])
  {
  }

  /** The registry check looks up exactly a truthy id, and clears it exactly when the lookup missed. */
  lemma LookupStepsShape(handshake: Option<string>, found: Option<Session>)
    ensures var r := LookupSteps(handshake, found);
      && |r| <= 2
      && (r != [] <==> Truthy(handshake))
      && (r != [] ==> r[0] == Lookup(handshake.value))
      && (EmitClear in r <==> Truthy(handshake) && found.None?)
  {
  }

  /**
   * What one connection tells the client: `clear-session-id` exactly for a stale truthy id,
   * `login` exactly when the handler does not throw, and any `session-id` names the session
   * the socket ends up attached to, the reattached one or the new one.
   */
  lemma EmissionsShape(handshake: Option<string>, found: Option<Session>,
                       command: Option<seq<string>>, ptyFails: bool, id: string)
    ensures var r := ConnectionEmissions(handshake, found, command, ptyFails, id);
      && (ClearSessionId in r <==> Truthy(handshake) && found.None?)
      && (Login in r <==> !Fails(handshake, found, command, ptyFails))
      && (forall x :: SessionIdMsg(x) in r ==> x == if Reattaches(handshake, found) then handshake.value else id)
      && (ClearSessionId in r ==> r[0] == ClearSessionId)
    ensures ClearNotice(handshake, found) == [] || ClearNotice(handshake, found) == [ClearSessionId]
    ensures var a := Announcement(id, command, ptyFails);
      && (a != [] <==> command.Some? && !ptyFails)
      && (a == [] || a == [Login, SessionIdMsg(id)])
  {
  }

  class ConnectionHandler {
    const manager: SessionManager
    /** The `wetty_connections` gauge. */
    var connections: int
    var log: seq<Step>

    constructor (manager: SessionManager)
      ensures this.manager == manager && connections == 0 && log == []
    {
      this.manager := manager;
      connections := 0;
      log := [];
    }

    /**
     * One `connection` event. `handshake` is `socket.handshake.auth?.sessionId`; `command`,
     * `version`, `randomBytes` and `ptyFails` are the answers of the collaborators that
     * resolve the command, report env's version, supply randomness and spawn the pty.
     */
    method OnConnection(socket: Socket, handshake: Option<string>, command: Option<seq<string>>,
                        version: int, randomBytes: seq<Byte>, ptyFails: bool, now: int)
      returns (w: Option<Wiring>)
      requires manager.Valid()
      requires |randomBytes| == 16
      modifies this`connections, this`log, manager`sessions, socket`emitted, socket`listeners
      modifies HitTerm(manager.sessions, handshake)
      ensures manager.Valid()
      ensures w.Some? ==> w.value.socket == socket && w.value.manager == manager
      ensures old(manager.Owned()) ==> manager.Owned()
      ensures log == old(log) + ConnectionSteps(handshake, Found(old(manager.sessions), handshake, now), command, ptyFails)
      ensures connections == old(connections) +
                (if Fails(handshake, Found(old(manager.sessions), handshake, now), command, ptyFails) then 0 else 1)
      ensures socket.emitted == old(socket.emitted) +
                ConnectionEmissions(handshake, Found(old(manager.sessions), handshake, now), command, ptyFails,
                                    GenerateSessionId(randomBytes))
      ensures Found(old(manager.sessions), handshake, now).Some? ==>
                && w.Some? && fresh(w.value) && w.value.session == Found(old(manager.sessions), handshake, now).value
                && manager.sessions == Attached(old(manager.sessions), handshake.value, now)
                && socket.listeners == old(socket.listeners) + Wires(w.value)
                && w.value.session.term.dataListeners == old(manager.sessions[handshake.value].term.dataListeners) + {w.value}
                && w.value.session.term.ops == old(manager.sessions[handshake.value].term.ops)
      ensures Found(old(manager.sessions), handshake, now).None? && (command.None? || ptyFails) ==>
                w.None? && manager.sessions == old(manager.sessions) && socket.listeners == old(socket.listeners)
      ensures Found(old(manager.sessions), handshake, now).None? && command.Some? && !ptyFails ==>
                && NewSession(old(manager.sessions), manager.sessions, w, GenerateSessionId(randomBytes),
                              version, command.value, now)
                && fresh(w.value) && fresh(w.value.session.term)
                && socket.listeners == old(socket.listeners) + Wires(w.value)
    {
      connections := connections + 1;
      log := log + [GaugeInc];
      var found := LookUp(socket, handshake, now);
      assert found == Found(old(manager.sessions), handshake, now);
      if found.Some? {
        assert found.value.term == old(manager.sessions[handshake.value].term);
        w := Resume(socket, handshake, found.value, command, version, randomBytes, ptyFails, now,
                    old(manager.sessions), old(log), old(socket.emitted));
      } else {
        w := Admit(socket, handshake, command, version, randomBytes, ptyFails, now,
                   old(manager.sessions), old(log), old(connections), old(socket.emitted));
      }
    }

    /** The rest of a connection whose handshake id the lookup found: reattach, never throw. */
    method Resume(socket: Socket, handshake: Option<string>, s: Session, command: Option<seq<string>>,
                  version: int, randomBytes: seq<Byte>, ptyFails: bool, now: int,
                  ghost m0: map<string, Session>, ghost log0: seq<Step>, ghost emitted0: seq<Emission>)
      returns (w: Option<Wiring>)
      requires manager.Valid()
      requires |randomBytes| == 16
      requires Found(m0, handshake, now) == Some(s)
      requires manager.sessions == Touched(m0, handshake.value, now) && manager.sessions[s.id] == s
      requires log == log0 + [GaugeInc] + LookupSteps(handshake, Some(s))
      requires socket.emitted == emitted0
      modifies this`log, manager`sessions, socket`emitted, socket`listeners, s.term
      ensures manager.Valid()
      ensures w.Some? ==> w.value.socket == socket && w.value.manager == manager
      ensures old(manager.Owned()) ==> manager.Owned()
      ensures !Fails(handshake, Some(s), command, ptyFails)
      ensures log == log0 + ConnectionSteps(handshake, Some(s), command, ptyFails)
      ensures socket.emitted == emitted0 +
                ConnectionEmissions(handshake, Some(s), command, ptyFails, GenerateSessionId(randomBytes))
      ensures manager.sessions == Attached(m0, handshake.value, now)
      ensures w.Some? && fresh(w.value) && w.value.session == s
      ensures socket.listeners == old(socket.listeners) + Wires(w.value)
      ensures s.term.dataListeners == old(s.term.dataListeners) + {w.value}
      ensures s.term.ops == old(s.term.ops)
    {
      assert s.id == handshake.value;
      w := Reattach(socket, s, version, randomBytes, now);
      assert manager.sessions == Attached(m0, handshake.value, now) by {
        AttachAbsorbsTouch(m0, handshake.value, now, now);
      }
      AppendAssoc(log0, [GaugeInc], LookupSteps(handshake, Some(s)), [SpawnCall(s.args, Some(s.id))]);
    }

    /** The rest of a connection with no handshake id or a stale one: the normal flow. */
    method Admit(socket: Socket, handshake: Option<string>, command: Option<seq<string>>,
                 version: int, randomBytes: seq<Byte>, ptyFails: bool, now: int,
                 ghost m0: map<string, Session>, ghost log0: seq<Step>, ghost connections0: int,
                 ghost emitted0: seq<Emission>)
      returns (w: Option<Wiring>)
      requires manager.Valid()
      requires |randomBytes| == 16
      requires Found(m0, handshake, now).None? && manager.sessions == m0
      requires log == log0 + [GaugeInc] + LookupSteps(handshake, None)
      requires connections == connections0 + 1
      requires socket.emitted == emitted0 + ClearNotice(handshake, None)
      modifies this`connections, this`log, manager`sessions, socket`emitted, socket`listeners
      ensures manager.Valid()
      ensures w.Some? ==> w.value.socket == socket && w.value.manager == manager
      ensures old(manager.Owned()) ==> manager.Owned()
      ensures log == log0 + ConnectionSteps(handshake, None, command, ptyFails)
      ensures connections == connections0 + (if Fails(handshake, None, command, ptyFails) then 0 else 1)
      ensures socket.emitted == emitted0 +
                ConnectionEmissions(handshake, None, command, ptyFails, GenerateSessionId(randomBytes))
      ensures command.None? || ptyFails ==>
                w.None? && manager.sessions == m0 && socket.listeners == old(socket.listeners)
      ensures command.Some? && !ptyFails ==>
                && NewSession(m0, manager.sessions, w, GenerateSessionId(randomBytes), version, command.value, now)
                && fresh(w.value) && fresh(w.value.session.term)
                && socket.listeners == old(socket.listeners) + Wires(w.value)
    {
      w := Authenticate(socket, command, version, randomBytes, ptyFails, now);
      AppendAssoc(log0, [GaugeInc], LookupSteps(handshake, None), AuthSteps(command, ptyFails));
      Regroup(emitted0, ClearNotice(handshake, None),
              Announcement(GenerateSessionId(randomBytes), command, ptyFails));
    }

    /**
     * The registry check: a truthy handshake id is looked up (refreshing a hit), and a miss is
     * answered with `clear-session-id`.
     */
    method LookUp(socket: Socket, handshake: Option<string>, now: int) returns (found: Option<Session>)
      requires manager.Valid()
      modifies this`log, manager`sessions, socket`emitted
      ensures manager.Valid()
      ensures old(manager.Owned()) ==> manager.Owned()
      ensures found == Found(old(manager.sessions), handshake, now)
      ensures found.Some? ==> manager.sessions == Touched(old(manager.sessions), handshake.value, now)
                              && manager.sessions[found.value.id] == found.value
                              && {found.value.term} == HitTerm(old(manager.sessions), handshake)
      ensures found.None? ==> manager.sessions == old(manager.sessions)
      ensures log == old(log) + LookupSteps(handshake, found)
      ensures found.Some? ==> socket.emitted == old(socket.emitted)
      ensures found.None? ==> socket.emitted == old(socket.emitted) + ClearNotice(handshake, found)
    {
      found := None;
      if Truthy(handshake) {
        var id := handshake.value;
        log := log + [Lookup(id)];
        found := manager.GetSession(id, now);
        if found.None? {
          socket.Emit(ClearSessionId);
          log := log + [EmitClear];
        }
      }
    }

    /** The registry hit: `spawn` with the found session's own arguments and the session itself. */
    method Reattach(socket: Socket, s: Session, version: int, randomBytes: seq<Byte>, now: int)
      returns (w: Option<Wiring>)
      requires manager.Valid() && s.id in manager.sessions && manager.sessions[s.id] == s
      requires |randomBytes| == 16
      modifies this`log, manager`sessions, socket`emitted, socket`listeners, s.term
      ensures manager.Valid()
      ensures w.Some? ==> w.value.socket == socket && w.value.manager == manager
      ensures old(manager.Owned()) ==> manager.Owned()
      ensures log == old(log) + [SpawnCall(s.args, Some(s.id))]
      ensures w.Some? && fresh(w.value) && w.value.session == s
      ensures manager.sessions == Attached(old(manager.sessions), s.id, now)
      ensures socket.emitted == old(socket.emitted) + [Login, SessionIdMsg(s.id)]
      ensures socket.listeners == old(socket.listeners) + Wires(w.value)
      ensures s.term.dataListeners == old(s.term.dataListeners) + {w.value}
      ensures s.term.ops == old(s.term.ops)
    {
      log := log + [SpawnCall(s.args, Some(s.id))];
      w := Spawn(manager, socket, s.args, Some(s), version, randomBytes, false, now);
    }

    /** Lines after the registry check: `getCommand`, then `spawn`, and the `catch` that decrements the gauge. */
    method Authenticate(socket: Socket, command: Option<seq<string>>,
                        version: int, randomBytes: seq<Byte>, ptyFails: bool, now: int)
      returns (w: Option<Wiring>)
      requires manager.Valid()
      requires |randomBytes| == 16
      modifies this`connections, this`log, manager`sessions, socket`emitted, socket`listeners
      ensures manager.Valid()
      ensures w.Some? ==> w.value.socket == socket && w.value.manager == manager
      ensures old(manager.Owned()) ==> manager.Owned()
      ensures log == old(log) + AuthSteps(command, ptyFails)
      ensures connections == old(connections) - (if command.None? || ptyFails then 1 else 0)
      ensures socket.emitted == old(socket.emitted) + Announcement(GenerateSessionId(randomBytes), command, ptyFails)
      ensures command.None? || ptyFails ==>
                w.None? && manager.sessions == old(manager.sessions) && socket.listeners == old(socket.listeners)
      ensures command.Some? && !ptyFails ==>
                && NewSession(old(manager.sessions), manager.sessions, w, GenerateSessionId(randomBytes),
                              version, command.value, now)
                && fresh(w.value) && fresh(w.value.session.term)
                && socket.listeners == old(socket.listeners) + Wires(w.value)
    {
      log := log + [GetCommand];
      if command.None? {
        connections := connections - 1;
        log := log + [GaugeDec];
        Regroup(old(log), [GetCommand], [GaugeDec]);
        return None;
      }
      w := SpawnGuarded(socket, command.value, version, randomBytes, ptyFails, now);
      Regroup(old(log), [GetCommand], SpawnSteps(command.value, ptyFails));
    }

    /** `spawn` for a new session inside the `try`, and the `catch` that decrements the gauge. */
    method SpawnGuarded(socket: Socket, args: seq<string>,
                        version: int, randomBytes: seq<Byte>, ptyFails: bool, now: int)
      returns (w: Option<Wiring>)
      requires manager.Valid()
      requires |randomBytes| == 16
      modifies this`connections, this`log, manager`sessions, socket`emitted, socket`listeners
      ensures manager.Valid()
      ensures w.Some? ==> w.value.socket == socket && w.value.manager == manager
      ensures old(manager.Owned()) ==> manager.Owned()
      ensures log == old(log) + SpawnSteps(args, ptyFails)
      ensures connections == old(connections) - (if ptyFails then 1 else 0)
      ensures socket.emitted == old(socket.emitted) + Announcement(GenerateSessionId(randomBytes), Some(args), ptyFails)
      ensures ptyFails ==>
                w.None? && manager.sessions == old(manager.sessions) && socket.listeners == old(socket.listeners)
      ensures !ptyFails ==>
                && NewSession(old(manager.sessions), manager.sessions, w, GenerateSessionId(randomBytes), version, args, now)
                && fresh(w.value) && fresh(w.value.session.term)
                && socket.listeners == old(socket.listeners) + Wires(w.value)
    {
      log := log + [SpawnCall(args, None)];
      w := Spawn(manager, socket, args, None, version, randomBytes, ptyFails, now);
      ghost var id := GenerateSessionId(randomBytes);
      assert socket.emitted == old(socket.emitted) + Announcement(id, Some(args), ptyFails);
      assert !ptyFails ==> NewSession(old(manager.sessions), manager.sessions, w, id, version, args, now);
      if w.None? {
        connections := connections - 1;
        log := log + [GaugeDec];
      }
      Regroup(old(log), [SpawnCall(args, None)], if ptyFails then [GaugeDec] else []);
    }
  }

  /**
   * A session registered by the normal flow: stored under the generated id, attached, refreshed
   * now, for `command`, with a pty started on env's arguments for it that only this attachment
   * listens to and that has received no operation, and the only change to the registry.
   */
  ghost predicate NewSession(m0: map<string, Session>, m1: map<string, Session>, w: Option<Wiring>,
                             id: string, version: int, command: seq<string>, now: int)
    reads if w.Some? then {w.value, w.value.session.term} else {}
  {
    && w.Some?
    && w.value.session == Session(id, w.value.session.term, now, true, command, Address(command))
    && w.value.session.term.command == EnvArgs(version, command)
    && w.value.session.term.dataListeners == {w.value}
    && w.value.session.term.ops == []
    && m1 == m0[id := w.value.session]
  }
}
