/**
 * The session registry: a map from session id to session record, kept alive across
 * socket reconnects and reclaimed by a periodic sweep (src/server/sessionManager.ts).
 */
module Registry {
  import opened Base
  import opened Transport

  /** Absolute idle timeout, 30 minutes in milliseconds; applies to attached sessions too. */
  const SESSION_TIMEOUT: int := 30 * 60 * 1000
  /** How long a detached session waits for a reattach, 5 minutes in milliseconds. */
  const DISCONNECT_GRACE_PERIOD: int := 5 * 60 * 1000

  /**
   * A session record. `term` is the pty handle the session owns; `address` is JavaScript's
   * `undefined` (None) when the launch arguments are `["ssh"]` with no target.
   */
  datatype Session = Session(
    id: string,
    term: Pty,
    lastActivity: int,
    isActive: bool,
    args: seq<string>,
    address: Option<string>)

  /** The registry's notifications, in the order they were emitted. */
  datatype Event = SessionEnded(id: string, exitCode: int) | SessionRemoved(id: string)

  /** The display address derived from the launch arguments. */
  function Address(args: seq<string>): (a: Option<string>)
    ensures |args| >= 2 && args[0] == "ssh" ==> a == Some(args[1])
    ensures |args| == 0 || args[0] != "ssh" ==> a == Some("localhost")
    ensures a == None <==> args == ["ssh"]
  {
    if |args| > 0 && args[0] == "ssh" then
      (if |args| > 1 then Some(args[1]) else None)
    else
      Some("localhost")
  }

  /** The registry after a lookup hit or miss on `id`: only that record's activity is refreshed. */
  function Touched(m: map<string, Session>, id: string, now: int): (r: map<string, Session>)
    ensures r.Keys == m.Keys
    ensures id in m ==> r[id] == m[id].(lastActivity := now)
    ensures forall k :: k in m && k != id ==> r[k] == m[k]
  {
    if id in m then m[id := m[id].(lastActivity := now)] else m
  }

  /** The registry after `attachSocket(id)`: that record becomes active and is refreshed. */
  function Attached(m: map<string, Session>, id: string, now: int): (r: map<string, Session>)
    ensures r.Keys == m.Keys
    ensures id in m ==> r[id] == m[id].(isActive := true, lastActivity := now)
    ensures forall k :: k in m && k != id ==> r[k] == m[k]
  {
    if id in m then m[id := m[id].(isActive := true, lastActivity := now)] else m
  }

  /**
   * Attaching after a lookup is the same as attaching: both refresh the same record, and only
   * the attach's instant survives, whatever instant the lookup read.
   */
  lemma AttachAbsorbsTouch(m: map<string, Session>, id: string, lookedUp: int, now: int)
    ensures Attached(Touched(m, id, lookedUp), id, now) == Attached(m, id, now)
  {
  }

  /** Attaching a just-registered record keeps everything but the activity, which becomes the attach's instant. */
  lemma AttachAfterCreate(m: map<string, Session>, s: Session, now: int)
    requires s.isActive
    ensures Attached(m[s.id := s], s.id, now) == m[s.id := s.(lastActivity := now)]
  {
  }

  /** Attaching a record just registered as active and refreshed now changes nothing. */
  lemma AttachRegistered(m: map<string, Session>, s: Session, now: int)
    requires s.isActive && s.lastActivity == now
    ensures Attached(m[s.id := s], s.id, now) == m[s.id := s]
  {
  }

  /** The registry after `detachSocket(id)`: that record becomes inactive and is refreshed. */
  function Detached(m: map<string, Session>, id: string, now: int): (r: map<string, Session>)
    ensures r.Keys == m.Keys
    ensures id in m ==> r[id] == m[id].(isActive := false, lastActivity := now)
    ensures forall k :: k in m && k != id ==> r[k] == m[k]
  {
    if id in m then m[id := m[id].(isActive := false, lastActivity := now)] else m
  }

  /** What the sweep decides for one session; the absolute timeout is tested first. */
  datatype Verdict = Keep | TimedOut | GraceExpired

  function Classify(s: Session, now: int): (v: Verdict)
    ensures v == Keep <==>
      now - s.lastActivity <= SESSION_TIMEOUT &&
      (s.isActive || now - s.lastActivity <= DISCONNECT_GRACE_PERIOD)
    ensures v == TimedOut <==> now - s.lastActivity > SESSION_TIMEOUT
    ensures s.isActive ==> v != GraceExpired
  {
    var idle := now - s.lastActivity;
    if idle > SESSION_TIMEOUT then TimedOut
    else if !s.isActive && idle > DISCONNECT_GRACE_PERIOD then GraceExpired
    else Keep
  }

  /** The sessions a sweep at time `now` leaves in the registry. */
  function Sweep(m: map<string, Session>, now: int): (r: map<string, Session>)
    ensures r.Keys <= m.Keys
    ensures forall id :: id in r ==> r[id] == m[id]
  {
    map id | id in m && Classify(m[id], now) == Keep :: m[id]
  }

  predicate Distinct(ids: seq<string>) {
    forall i, j :: 0 <= i < j < |ids| ==> ids[i] != ids[j]
  }

  /** No two registered sessions share a pty handle. */
  ghost predicate DistinctTerms(m: map<string, Session>) {
    forall a, b :: a in m && b in m && a != b ==> m[a].term != m[b].term
  }

  /** Each session in `m` owns its pty exclusively, and no such pty is in `kills`. */
  ghost predicate OwnedBy(m: map<string, Session>, kills: multiset<Pty>) {
    DistinctTerms(m) && forall id :: id in m ==> kills[m[id].term] == 0
  }

  /** The pty handles killed when the sessions `ids` of `m` are removed in that order. */
  ghost function KilledTerms(m: map<string, Session>, ids: seq<string>): multiset<Pty>
    requires forall i :: 0 <= i < |ids| ==> ids[i] in m
  {
    if ids == [] then multiset{}
    else KilledTerms(m, ids[..|ids| - 1]) + multiset{m[ids[|ids| - 1]].term}
  }

  /** The `session-removed` notifications for removing `ids` in that order. */
  function Removals(ids: seq<string>): (r: seq<Event>)
    ensures |r| == |ids|
    ensures forall i :: 0 <= i < |ids| ==> r[i] == SessionRemoved(ids[i])
  {
    if ids == [] then [] else Removals(ids[..|ids| - 1]) + [SessionRemoved(ids[|ids| - 1])]
  }

  class SessionManager {
    var sessions: map<string, Session>
    var events: seq<Event>
    /** Whether the periodic cleanup interval is still scheduled. */
    var sweeping: bool
    /** How many times `kill` has been called on each pty handle. */
    ghost var kills: multiset<Pty>

    /** Every record is stored under its own id. */
    ghost predicate Valid()
      reads this
    {
      forall id :: id in sessions ==> sessions[id].id == id
    }

    /** Each registered session owns its pty exclusively, and that pty has never been killed. */
    ghost predicate Owned()
      reads this
    {
      OwnedBy(sessions, kills)
    }

    ghost function Terms(): set<Pty>
      reads this
    {
      set id | id in sessions :: sessions[id].term
    }

    constructor ()
      ensures Valid() && Owned()
      ensures sessions == map[] && events == [] && sweeping && kills == multiset{}
    {
      sessions := map[];
      events := [];
      sweeping := true;
      kills := multiset{};
    }

    method CreateSession(id: string, term: Pty, args: seq<string>, now: int) returns (s: Session)
      requires Valid()
      modifies this`sessions
      ensures Valid()
      ensures s == Session(id, term, now, true, args, Address(args))
      ensures sessions == old(sessions)[id := s]
      ensures old(Owned()) && term !in old(Terms()) && kills[term] == 0 ==> Owned()
    {
      s := Session(id, term, now, true, args, Address(args));
      sessions := sessions[id := s];
    }

    /** The pty's exit notification: informational only, the record stays. */
    method ProcessExited(id: string, exitCode: int)
      modifies this`events
      ensures events == old(events) + [SessionEnded(id, exitCode)]
      ensures sessions == old(sessions) && kills == old(kills)
    {
      events := events + [SessionEnded(id, exitCode)];
    }

    /** Lookup; a hit refreshes that record's activity and nothing else. */
    method GetSession(id: string, now: int) returns (r: Option<Session>)
      requires Valid()
      modifies this`sessions
      ensures Valid()
      ensures sessions == Touched(old(sessions), id, now)
      ensures r == if id in old(sessions) then Some(sessions[id]) else None
      ensures old(Owned()) ==> Owned()
    {
      if id in sessions {
        var s := sessions[id].(lastActivity := now);
        if Owned() {
          RefreshKeepsOwnership(sessions, kills, id, s);
        }
        sessions := sessions[id := s];
        r := Some(s);
      } else {
        r := None;
      }
    }

    method AttachSocket(id: string, now: int) returns (ok: bool)
      requires Valid()
      modifies this`sessions
      ensures Valid()
      ensures ok == (id in old(sessions))
      ensures sessions == Attached(old(sessions), id, now)
      ensures old(Owned()) ==> Owned()
    {
      if id !in sessions {
        return false;
      }
      var s := sessions[id].(isActive := true, lastActivity := now);
      if Owned() {
        RefreshKeepsOwnership(sessions, kills, id, s);
      }
      sessions := sessions[id := s];
      ok := true;
    }

    /** Marks the session detached, which starts its grace period; the pty is not killed. */
    method DetachSocket(id: string, now: int)
      requires Valid()
      modifies this`sessions
      ensures Valid()
      ensures sessions == Detached(old(sessions), id, now)
      ensures old(Owned()) ==> Owned()
    {
      if id !in sessions {
        return;
      }
      var s := sessions[id].(isActive := false, lastActivity := now);
      if Owned() {
        RefreshKeepsOwnership(sessions, kills, id, s);
      }
      sessions := sessions[id := s];
    }

    /**
     * Kills the session's pty and deletes the record. A failing `kill` is caught and logged
     * by the source, so the state afterwards is the same whether or not it threw.
     */
    method RemoveSession(id: string) returns (ok: bool)
      requires Valid()
      modifies this`sessions, this`events, this`kills
      ensures Valid()
      ensures ok == (id in old(sessions))
      ensures ok ==>
        && sessions == old(sessions) - {id}
        && events == old(events) + [SessionRemoved(id)]
        && kills == old(kills) + multiset{old(sessions)[id].term}
      ensures !ok ==> sessions == old(sessions) && events == old(events) && kills == old(kills)
      ensures old(Owned()) ==> Owned()
    {
      if id !in sessions {
        return false;
      }
      var s := sessions[id];
      if Owned() {
        RemovalKeepsOwnership(sessions, kills, id);
      }
      kills := kills + multiset{s.term};
      sessions := sessions - {id};
      events := events + [SessionRemoved(id)];
      ok := true;
    }

    /** The first pass of the sweep: the ids of every session whose verdict is not Keep. */
    method ExpiredIds(now: int) returns (ids: seq<string>)
      ensures Distinct(ids)
      ensures forall id :: id in ids <==> id in sessions && Classify(sessions[id], now) != Keep
    {
      var pending := sessions.Keys;
      ids := [];
      while pending != {}
        invariant pending <= sessions.Keys
        invariant Distinct(ids)
        invariant forall i :: 0 <= i < |ids| ==> ids[i] in sessions && ids[i] !in pending
        invariant forall id :: id in sessions && id !in pending ==>
          (id in ids <==> Classify(sessions[id], now) != Keep)
        decreases pending
      {
        var id :| id in pending;
        if Classify(sessions[id], now) != Keep {
          ids := ids + [id];
        }
        pending := pending - {id};
      }
    }

    /** `Array.from(sessions.keys())`: every id, each once. */
    method KeyList() returns (ids: seq<string>)
      ensures Distinct(ids)
      ensures forall id :: id in ids <==> id in sessions
    {
      var pending := sessions.Keys;
      ids := [];
      while pending != {}
        invariant pending <= sessions.Keys
        invariant Distinct(ids)
        invariant forall i :: 0 <= i < |ids| ==> ids[i] in sessions && ids[i] !in pending
        invariant forall id :: id in sessions ==> (id in ids <==> id !in pending)
        decreases pending
      {
        var id :| id in pending;
        ids := ids + [id];
        pending := pending - {id};
      }
    }

    /** Removes the listed sessions one after the other. */
    method RemoveEach(ids: seq<string>)
      requires Valid()
      requires Distinct(ids)
      requires forall i :: 0 <= i < |ids| ==> ids[i] in sessions
      modifies this`sessions, this`events, this`kills
      ensures Valid()
      ensures sessions == old(sessions) - Elements(ids)
      ensures events == old(events) + Removals(ids)
      ensures kills == old(kills) + KilledTerms(old(sessions), ids)
    {
      var i := 0;
      while i < |ids|
        invariant 0 <= i <= |ids|
        invariant Valid()
        invariant sessions == old(sessions) - Elements(ids[..i])
        invariant events == old(events) + Removals(ids[..i])
        invariant kills == old(kills) + KilledTerms(old(sessions), ids[..i])
      {
        RemoveNext(ids, i, old(sessions), old(events), old(kills));
        i := i + 1;
      }
      assert ids[..|ids|] == ids;
    }

    /** One step of RemoveEach: the map loses `ids[i]`; the `session-removed` log and the kill tally each gain it. */
    method RemoveNext(ids: seq<string>, i: nat, ghost m0: map<string, Session>,
                      ghost events0: seq<Event>, ghost kills0: multiset<Pty>)
      requires Valid()
      requires i < |ids| && Distinct(ids)
      requires forall j :: 0 <= j < |ids| ==> ids[j] in m0
      requires sessions == m0 - Elements(ids[..i])
      requires events == events0 + Removals(ids[..i])
      requires kills == kills0 + KilledTerms(m0, ids[..i])
      modifies this`sessions, this`events, this`kills
      ensures Valid()
      ensures sessions == m0 - Elements(ids[..i + 1])
      ensures events == events0 + Removals(ids[..i + 1])
      ensures kills == kills0 + KilledTerms(m0, ids[..i + 1])
    {
      RemoveStep(m0, ids, i);
      Regroup(events0, Removals(ids[..i]), [SessionRemoved(ids[i])]);
      RegroupMultiset(kills0, KilledTerms(m0, ids[..i]), multiset{m0[ids[i]].term});
      var ok := RemoveSession(ids[i]);
    }

    /**
     * The periodic sweep: collects the expired ids, then removes each of them.
     * `removed` is the order in which they were removed.
     */
    method CleanupSessions(now: int) returns (ghost removed: seq<string>)
      requires Valid()
      modifies this`sessions, this`events, this`kills
      ensures Valid()
      ensures Distinct(removed)
      ensures forall id :: id in removed <==> id in old(sessions) && Classify(old(sessions)[id], now) != Keep
      ensures sessions == Sweep(old(sessions), now)
      ensures events == old(events) + Removals(removed)
      ensures kills == old(kills) + KilledTerms(old(sessions), removed)
      ensures old(Owned()) ==> Owned()
      ensures old(Owned()) ==> forall id :: id in removed ==> kills[old(sessions)[id].term] == 1
    {
      var toRemove := ExpiredIds(now);
      RemoveEach(toRemove);
      removed := toRemove;
      assert sessions == Sweep(old(sessions), now);
      OwnershipAfterRemoval(old(sessions), old(kills), toRemove);
    }

    /** Stops the sweep and removes every session; `removed` is the removal order. */
    method Shutdown() returns (ghost removed: seq<string>)
      requires Valid()
      modifies this`sessions, this`events, this`kills, this`sweeping
      ensures Valid()
      ensures sessions == map[] && !sweeping
      ensures Distinct(removed)
      ensures forall id :: id in removed <==> id in old(sessions)
      ensures events == old(events) + Removals(removed)
      ensures kills == old(kills) + KilledTerms(old(sessions), removed)
      ensures old(Owned()) ==> forall id :: id in old(sessions) ==> kills[old(sessions)[id].term] == 1
    {
      sweeping := false;
      var ids := KeyList();
      RemoveEach(ids);
      removed := ids;
      assert sessions.Keys == {};
      OwnershipAfterRemoval(old(sessions), old(kills), ids);
    }

    /** The records that currently have a socket attached. */
    function ActiveSessions(): (r: set<Session>)
      reads this
      ensures forall s :: s in r ==> s in sessions.Values && s.isActive
      ensures forall id :: id in sessions && sessions[id].isActive ==> sessions[id] in r
    {
      set id | id in sessions && sessions[id].isActive :: sessions[id]
    }

    function SessionCount(): (n: nat)
      reads this
      ensures n == 0 <==> sessions == map[]
    {
      |sessions|
    }
  }

  /**
   * Removing the distinct ids `ids` from an owned registry kills each of their ptys exactly
   * once and leaves every other pty unkilled.
   */
  lemma OwnershipAfterRemoval(m: map<string, Session>, kills: multiset<Pty>, ids: seq<string>)
    requires forall i :: 0 <= i < |ids| ==> ids[i] in m
    requires Distinct(ids)
    ensures DistinctTerms(m) && (forall id :: id in m ==> kills[m[id].term] == 0) ==>
      forall id :: id in m ==> (kills + KilledTerms(m, ids))[m[id].term] == if id in ids then 1 else 0
  {
    if DistinctTerms(m) && (forall id :: id in m ==> kills[m[id].term] == 0) {
      forall id | id in m
        ensures (kills + KilledTerms(m, ids))[m[id].term] == if id in ids then 1 else 0
      {
        KilledTermsCount(m, ids, id);
      }
    }
  }

  function Elements(ids: seq<string>): set<string> {
    set id | id in ids
  }

  lemma MapMinusTwice(m: map<string, Session>, gone: set<string>, id: string)
    ensures (m - gone) - {id} == m - (gone + {id})
  {
  }

  /**
   * One step of removing `ids` in order: the next id is still registered with its record unchanged;
   * the map loses it, and the removal log and the kill tally each gain it.
   */
  lemma RemoveStep(m: map<string, Session>, ids: seq<string>, i: nat)
    requires i < |ids| && Distinct(ids)
    requires forall j :: 0 <= j < |ids| ==> ids[j] in m
    ensures ids[i] in m - Elements(ids[..i]) && (m - Elements(ids[..i]))[ids[i]] == m[ids[i]]
    ensures (m - Elements(ids[..i])) - {ids[i]} == m - Elements(ids[..i + 1])
    ensures Removals(ids[..i + 1]) == Removals(ids[..i]) + [SessionRemoved(ids[i])]
    ensures KilledTerms(m, ids[..i + 1]) == KilledTerms(m, ids[..i]) + multiset{m[ids[i]].term}
  {
    assert ids[i] !in Elements(ids[..i]);
    ElementsSnoc(ids, i);
    MapMinusTwice(m, Elements(ids[..i]), ids[i]);
    assert ids[..i + 1][..i] == ids[..i];
  }

  /** Replacing a record by one with the same pty (a refresh, an attach, a detach) keeps the registry owned. */
  lemma RefreshKeepsOwnership(m: map<string, Session>, kills: multiset<Pty>, id: string, s: Session)
    requires OwnedBy(m, kills) && id in m && s.term == m[id].term
    ensures OwnedBy(m[id := s], kills)
  {
  }

  lemma ElementsSnoc(ids: seq<string>, i: nat)
    requires i < |ids|
    ensures Elements(ids[..i + 1]) == Elements(ids[..i]) + {ids[i]}
  {
    assert forall x :: x in ids[..i + 1] <==> x in ids[..i] || x == ids[i];
  }

  /**
   * Removing one session of an owned registry (what RemoveSession does to `sessions` and
   * `kills`) keeps it owned, and the removed session's pty has then been killed exactly once.
   */
  lemma RemovalKeepsOwnership(m: map<string, Session>, kills: multiset<Pty>, id: string)
    requires OwnedBy(m, kills) && id in m
    ensures OwnedBy(m - {id}, kills + multiset{m[id].term})
    ensures (kills + multiset{m[id].term})[m[id].term] == 1
  {
  }

  /** With distinct ids and distinct ptys, each listed session's pty appears exactly once. */
  lemma {:induction false} KilledTermsCount(m: map<string, Session>, ids: seq<string>, id: string)
    requires forall i :: 0 <= i < |ids| ==> ids[i] in m
    requires Distinct(ids)
    requires DistinctTerms(m)
    requires id in m
    ensures KilledTerms(m, ids)[m[id].term] == if id in ids then 1 else 0
  {
    if ids != [] {
      var init, last := ids[..|ids| - 1], ids[|ids| - 1];
      assert forall x :: x in ids <==> x in init || x == last;
      KilledTermsCount(m, init, id);
    }
  }

  /** An attached session is reclaimed only by the absolute timeout, never by the grace rule. */
  lemma ActiveReclaimedOnlyByTimeout(m: map<string, Session>, now: int, id: string)
    requires id in m && m[id].isActive
    ensures id !in Sweep(m, now) <==> now - m[id].lastActivity > SESSION_TIMEOUT
  {
  }

  /** The sweep keeps exactly the sessions within the timeout that are attached or within their grace period. */
  lemma SweepKeeps(m: map<string, Session>, now: int, id: string)
    requires id in m
    ensures id in Sweep(m, now) <==>
      now - m[id].lastActivity <= SESSION_TIMEOUT &&
      (m[id].isActive || now - m[id].lastActivity <= DISCONNECT_GRACE_PERIOD)
  {
  }
}
