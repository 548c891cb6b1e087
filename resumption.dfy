/**
 * Session resumption end to end: the id the server announces for a new session is the id a
 * client stores and presents on its next handshake, the handler reattaches it while the
 * registry still holds it, and a client whose session was swept is told to forget it.
 */
module Resumption {
  import opened Base
  import opened Transport
  import opened Registry
  import opened Relay
  import opened Server
  import opened ClientSocket

  /** A generated id is never empty, so the handler's truthiness test always passes it. */
  lemma GeneratedIdTruthy(randomBytes: seq<Byte>)
    requires |randomBytes| == 16
    ensures Truthy(Some(GenerateSessionId(randomBytes)))
    ensures Presented(FromStorage, Some(GenerateSessionId(randomBytes))) == Some(GenerateSessionId(randomBytes))
  {
    var id := GenerateSessionId(randomBytes);
    assert |id| == 32;
  }

  /**
   * A client that stored the announced id and reconnects while the session is registered
   * is reattached: logged in, told the same id, and nothing is looked up beyond that id.
   */
  lemma AnnouncedIdResumes(m: map<string, Session>, randomBytes: seq<Byte>, now: int,
                           command: Option<seq<string>>, ptyFails: bool, newId: string)
    requires |randomBytes| == 16
    requires GenerateSessionId(randomBytes) in m
    requires m[GenerateSessionId(randomBytes)].id == GenerateSessionId(randomBytes)
    ensures var id := GenerateSessionId(randomBytes);
      var h := Presented(FromStorage, Some(id));
      var found := Found(m, h, now);
      && Reattaches(h, found) && !Fails(h, found, command, ptyFails)
      && ConnectionEmissions(h, found, command, ptyFails, newId) == [Login, SessionIdMsg(id)]
      && ConnectionSteps(h, found, command, ptyFails) ==
         [GaugeInc, Lookup(id), SpawnCall(m[id].args, Some(id))]
  {
    GeneratedIdTruthy(randomBytes);
  }

  /**
   * A session the sweep at `now` reclaimed is not found at any later handshake: the client
   * is first told to clear its id, and then, if a new session starts, is told the new one.
   */
  lemma SweptIdCleared(m: map<string, Session>, id: string, now: int, later: int,
                       command: Option<seq<string>>, ptyFails: bool, newId: string)
    requires id != "" && id in m && Classify(m[id], now) != Keep
    ensures var h := Some(id);
      var found := Found(Sweep(m, now), h, later);
      var e := ConnectionEmissions(h, found, command, ptyFails, newId);
      && found.None?
      && e[0] == ClearSessionId
      && (command.Some? && !ptyFails <==> e == [ClearSessionId, Login, SessionIdMsg(newId)])
      && ConnectionSteps(h, found, command, ptyFails)[..3] == [GaugeInc, Lookup(id), EmitClear]
  {
    assert id !in Sweep(m, now);
  }

  /**
   * A session the sweep keeps is still found: a disconnected client that returns within the
   * grace period, and before the absolute timeout, is reattached to it.
   */
  lemma WithinGraceResumes(m: map<string, Session>, id: string, now: int, later: int,
                           command: Option<seq<string>>, ptyFails: bool)
    requires id != "" && id in m && !m[id].isActive
    requires now - m[id].lastActivity <= DISCONNECT_GRACE_PERIOD
    ensures var found := Found(Sweep(m, now), Some(id), later);
      && Reattaches(Some(id), found)
      && found.value == m[id].(lastActivity := later)
      && EmitClear !in ConnectionSteps(Some(id), found, command, ptyFails)
  {
    assert Classify(m[id], now) == Keep;
    ReattachSkipsAuthentication(Some(id), Found(Sweep(m, now), Some(id), later), command, ptyFails);
  }

  /**
   * A fresh connection followed by that connection's own disconnect: the new session stays
   * registered under its announced id, detached since `later`, its pty alive, sent nothing and
   * no longer listened to, and of this attachment's socket wires only the disconnect handler
   * remains.
   */
  method ConnectThenDisconnect(h: ConnectionHandler, socket: Socket, args: seq<string>, version: int,
                               randomBytes: seq<Byte>, now: int, later: int)
    returns (w: Wiring)
    requires h.manager.Valid()
    requires |randomBytes| == 16
    modifies h`connections, h`log, h.manager`sessions, socket`emitted, socket`listeners
    ensures var id := GenerateSessionId(randomBytes);
      && id in h.manager.sessions && h.manager.sessions[id] == w.session.(isActive := false, lastActivity := later)
      && w.session.id == id && w.session.args == args
      && h.manager.kills == old(h.manager.kills)
      && w.session.term.ops == [] && w.session.term.dataListeners == {}
      && socket.listeners == old(socket.listeners) - TornDown(w) + {Listener(DisconnectEvent, w)}
      && socket.emitted == old(socket.emitted) + [Login, SessionIdMsg(id)]
  {
    ghost var id := GenerateSessionId(randomBytes);
    ghost var m0 := h.manager.sessions;
    w := OpenSession(h, socket, args, version, randomBytes, now);
    w.OnDisconnect(later);
    DisconnectLeavesHandler(old(socket.listeners), w);
    DetachNewSession(m0, w.session, later);
  }

  /** Of an attachment's four socket wires, its disconnect removes all but the disconnect handler. */
  lemma DisconnectLeavesHandler(listeners: set<Listener>, w: Wiring)
    ensures listeners + Wires(w) - TornDown(w) == listeners - TornDown(w) + {Listener(DisconnectEvent, w)}
  {
  }

  /** Detaching a just-registered session keeps it registered, inactive and refreshed. */
  lemma DetachNewSession(m: map<string, Session>, s: Session, later: int)
    ensures var d := Detached(m[s.id := s], s.id, later);
      s.id in d && d[s.id] == s.(isActive := false, lastActivity := later)
  {
  }

  /** The connection half of ConnectThenDisconnect: a handshake without an id, and a pty that starts. */
  method OpenSession(h: ConnectionHandler, socket: Socket, args: seq<string>, version: int,
                     randomBytes: seq<Byte>, now: int)
    returns (w: Wiring)
    requires h.manager.Valid()
    requires |randomBytes| == 16
    modifies h`connections, h`log, h.manager`sessions, socket`emitted, socket`listeners
    ensures h.manager.Valid()
    ensures w.socket == socket && w.manager == h.manager && fresh(w.session.term)
    ensures w.session.id == GenerateSessionId(randomBytes) && w.session.args == args
    ensures w.session.term.ops == [] && w.session.term.dataListeners == {w}
    ensures h.manager.sessions == old(h.manager.sessions)[w.session.id := w.session]
    ensures socket.listeners == old(socket.listeners) + Wires(w)
    ensures socket.emitted == old(socket.emitted) + [Login, SessionIdMsg(GenerateSessionId(randomBytes))]
  {
    ghost var id := GenerateSessionId(randomBytes);
    assert Found(h.manager.sessions, None, now) == None;
    assert ConnectionEmissions(None, None, Some(args), false, id) == [Login, SessionIdMsg(id)];
    ghost var m0 := h.manager.sessions;
    var r := h.OnConnection(socket, None, Some(args), version, randomBytes, false, now);
    assert NewSession(m0, h.manager.sessions, r, id, version, args, now);
    w := r.value;
  }
}
