/**
 * `ConnectionResilience` of src/client/wetty/resilience.ts: a small state machine over page
 * visibility and socket events that decides when to force a reconnect after the page returns
 * from the background, and when a disconnect should not be shown to the user.
 */
module Resilience {
  import opened Base
  import opened ClientSocket

  datatype ResilienceState = ResilienceState(
    isBackground: bool,
    reconnectAttempts: int,
    wasConnected: bool,
    backgroundTime: int,
    lastForegroundCall: int)

  /** The state a fresh instance starts in. */
  const INITIAL_STATE := ResilienceState(false, 0, false, 0, 0)
  /** Foreground events closer together than this, in ms, are one return. */
  const FOREGROUND_DEBOUNCE := 100
  /** A page away for longer than this, in ms, is reconnected on return if disconnected. */
  const BACKGROUND_RECONNECT_AFTER := 10000

  /** The disconnect reasons `handleDisconnect` passes over silently while in background. */
  const SILENT_REASONS: set<string> := {"transport error", "transport close", "ping timeout"}
  /** The disconnect reasons `shouldSuppressDisconnectUI` hides while in background. */
  const SUPPRESSED_REASONS: set<string> := SILENT_REASONS + {"io server disconnect"}

  /** Only a page in background remembers when it went there. */
  predicate Settled(s: ResilienceState) {
    s.isBackground || s.backgroundTime == 0
  }

  /** A hidden `visibilitychange`, `pagehide` or `blur` at time `now`. */
  function Backgrounded(s: ResilienceState, now: int): (r: ResilienceState)
    ensures r.isBackground && r.backgroundTime == now
    ensures r.(isBackground := s.isBackground, backgroundTime := s.backgroundTime) == s
  {
    s.(isBackground := true, backgroundTime := now)
  }

  /** The foreground call at `now` falls within the debounce window of the previous one. */
  predicate Debounced(s: ResilienceState, now: int) {
    now - s.lastForegroundCall < FOREGROUND_DEBOUNCE
  }

  /** The state after `handleForeground` at `now`. */
  function Foreground(s: ResilienceState, now: int): (r: ResilienceState)
    ensures Debounced(s, now) ==> r == s
    ensures !Debounced(s, now) ==>
      && r.lastForegroundCall == now && !r.isBackground && r.backgroundTime == 0
      && r.reconnectAttempts == s.reconnectAttempts && r.wasConnected == s.wasConnected
  {
    if Debounced(s, now) then s
    else s.(lastForegroundCall := now, isBackground := false, backgroundTime := 0)
  }

  /**
   * `handleForeground` at `now` forces a reconnection: not debounced, back from a recorded
   * background period longer than the threshold, disconnected, and connected before.
   */
  predicate ForegroundReconnects(s: ResilienceState, now: int, connected: bool) {
    && !Debounced(s, now)
    && s.isBackground && s.backgroundTime > 0
    && now - s.backgroundTime > BACKGROUND_RECONNECT_AFTER
    && !connected && s.wasConnected
  }

  /** The state after `handleDisconnect(reason)`. */
  function Disconnected(s: ResilienceState, reason: string): (r: ResilienceState)
    ensures s.isBackground ==> r == s
    ensures !s.isBackground ==> r == s.(wasConnected := false)
  {
    if s.isBackground && reason in SILENT_REASONS then s
    else if !s.isBackground then s.(wasConnected := false)
    else s
  }

  /** `shouldSuppressDisconnectUI(reason)` for state `s`. */
  function Suppresses(s: ResilienceState, reason: string): (b: bool)
    ensures b <==> s.isBackground && reason in SUPPRESSED_REASONS
    ensures b && reason != "io server disconnect" ==> reason in SILENT_REASONS
  {
    s.isBackground && reason in SUPPRESSED_REASONS
  }

  /** Every state-changing event keeps `Settled`. */
  lemma SettledPreserved(s: ResilienceState, now: int, reason: string)
    requires Settled(s)
    ensures Settled(Backgrounded(s, now)) && Settled(Foreground(s, now)) && Settled(Disconnected(s, reason))
  {
  }

  /** A second foreground event at the same instant (pageshow after visibilitychange, say) does nothing. */
  lemma ForegroundDebouncesRepeat(s: ResilienceState, now: int, connected: bool)
    ensures Foreground(Foreground(s, now), now) == Foreground(s, now)
    ensures !ForegroundReconnects(Foreground(s, now), now, connected)
  {
  }

  /**
   * Hide at `t`, return at `t2`: the return reconnects exactly when it is not debounced, `t`
   * is a real timestamp, the absence exceeded the threshold, and the socket had been connected
   * and is not now; either way the page ends in foreground with nothing else changed.
   */
  lemma HideThenReturn(s: ResilienceState, t: int, t2: int, connected: bool)
    requires !Debounced(s, t2)
    ensures ForegroundReconnects(Backgrounded(s, t), t2, connected) <==>
      t > 0 && t2 - t > BACKGROUND_RECONNECT_AFTER && !connected && s.wasConnected
    ensures Foreground(Backgrounded(s, t), t2) ==
      s.(lastForegroundCall := t2, isBackground := false, backgroundTime := 0)
  {
  }

  /**
   * A return that falls in the debounce window of an earlier one leaves the page marked as in
   * background even though it is visible, so later disconnects are still passed over.
   */
  lemma DebouncedReturnStaysBackground(s: ResilienceState, t: int, t2: int, reason: string)
    requires Debounced(s, t2)
    requires reason in SILENT_REASONS
    ensures Foreground(Backgrounded(s, t), t2).isBackground
    ensures Suppresses(Foreground(Backgrounded(s, t), t2), reason)
  {
  }

  /** In background a disconnect never changes the state; the silent return is one such case. */
  lemma BackgroundDisconnectInert(s: ResilienceState, reason: string)
    requires s.isBackground
    ensures Disconnected(s, reason) == s
    ensures reason in SILENT_REASONS ==> Suppresses(s, reason)
  {
  }

  /** Without a prior connection no foreground event reconnects. */
  lemma NoReconnectWithoutHistory(s: ResilienceState, now: int, connected: bool)
    requires !s.wasConnected
    ensures !ForegroundReconnects(s, now, connected)
  {
  }

  class ConnectionResilience {
    var state: ResilienceState
    const socket: IoSocket
    const storage: Storage
    /** Whether `setReconnectCallback` has installed a callback. */
    var hasCallback: bool
    /** How many times that callback has run. */
    var callbackRuns: nat

    constructor (socket: IoSocket, storage: Storage)
      ensures state == INITIAL_STATE && Settled(state)
      ensures this.socket == socket && this.storage == storage
      ensures !hasCallback && callbackRuns == 0
    {
      state := INITIAL_STATE;
      this.socket := socket;
      this.storage := storage;
      hasCallback := false;
      callbackRuns := 0;
    }

    method SetReconnectCallback()
      modifies this`hasCallback
      ensures hasCallback
    {
      hasCallback := true;
    }

    method HandleVisibilityChange(hidden: bool, now: int)
      modifies this`state, socket`connectCalls, socket`auth
      ensures hidden ==> state == Backgrounded(old(state), now) && unchanged(socket)
      ensures !hidden ==> Foregrounded(old(state), old(socket.connected), old(socket.auth), old(socket.connectCalls), now)
      ensures Settled(old(state)) ==> Settled(state)
    {
      if hidden {
        state := state.(isBackground := true, backgroundTime := now);
      } else {
        HandleForeground(now);
      }
    }

    method HandlePageHide(now: int)
      modifies this`state
      ensures state == Backgrounded(old(state), now)
      ensures Settled(old(state)) ==> Settled(state)
    {
      state := state.(isBackground := true, backgroundTime := now);
    }

    method HandlePageShow(now: int)
      modifies this`state, socket`connectCalls, socket`auth
      ensures Foregrounded(old(state), old(socket.connected), old(socket.auth), old(socket.connectCalls), now)
      ensures Settled(old(state)) ==> Settled(state)
    {
      HandleForeground(now);
    }

    /** `focus` counts as a return only when the page is marked as in background. */
    method HandleFocus(now: int)
      modifies this`state, socket`connectCalls, socket`auth
      ensures old(state).isBackground ==>
        Foregrounded(old(state), old(socket.connected), old(socket.auth), old(socket.connectCalls), now)
      ensures !old(state).isBackground ==> state == old(state) && unchanged(socket)
      ensures Settled(old(state)) ==> Settled(state)
    {
      if state.isBackground {
        HandleForeground(now);
      }
    }

    method HandleBlur(now: int)
      modifies this`state
      ensures state == Backgrounded(old(state), now)
      ensures Settled(old(state)) ==> Settled(state)
    {
      state := state.(isBackground := true, backgroundTime := now);
    }

    /** The effect of `handleForeground` at `now`, from the state and socket before it. */
    ghost predicate Foregrounded(s: ResilienceState, connected: bool, auth: Auth, calls: nat, now: int)
      reads this, socket, storage
    {
      && state == Foreground(s, now)
      && socket.connectCalls == calls + (if ForegroundReconnects(s, now, connected) then 1 else 0)
      && socket.auth == (if ForegroundReconnects(s, now, connected)
                         then PinnedAuth(auth, StoredSessionId(storage)) else auth)
    }

    method HandleForeground(now: int)
      modifies this`state, socket`connectCalls, socket`auth
      ensures Foregrounded(old(state), old(socket.connected), old(socket.auth), old(socket.connectCalls), now)
      ensures Settled(old(state)) ==> Settled(state)
    {
      if now - state.lastForegroundCall < FOREGROUND_DEBOUNCE {
        return;
      }
      state := state.(lastForegroundCall := now);
      var wasBackground := state.isBackground;
      state := state.(isBackground := false);
      if wasBackground && state.backgroundTime > 0 {
        var backgroundDuration := now - state.backgroundTime;
        if backgroundDuration > BACKGROUND_RECONNECT_AFTER && !socket.connected {
          AttemptReconnection();
        }
      }
      state := state.(backgroundTime := 0);
    }

    method HandleConnect()
      modifies this`state
      ensures state == old(state).(wasConnected := true, reconnectAttempts := 0)
      ensures Settled(old(state)) ==> Settled(state)
    {
      state := state.(wasConnected := true, reconnectAttempts := 0);
    }

    method HandleDisconnect(reason: string)
      modifies this`state
      ensures state == Disconnected(old(state), reason)
      ensures Settled(old(state)) ==> Settled(state)
    {
      if state.isBackground && reason in SILENT_REASONS {
        return;
      }
      if !state.isBackground {
        state := state.(wasConnected := false);
      }
    }

    /** `reconnect`: attempts reset; the callback runs if installed and the socket was connected. */
    method HandleReconnect()
      modifies this`state, this`callbackRuns
      ensures state == old(state).(reconnectAttempts := 0)
      ensures callbackRuns == old(callbackRuns) + (if hasCallback && old(state).wasConnected then 1 else 0)
      ensures Settled(old(state)) ==> Settled(state)
    {
      state := state.(reconnectAttempts := 0);
      if hasCallback && state.wasConnected {
        callbackRuns := callbackRuns + 1;
      }
    }

    method HandleReconnectAttempt(attempt: int)
      modifies this`state
      ensures state == old(state).(reconnectAttempts := attempt)
      ensures Settled(old(state)) ==> Settled(state)
    {
      state := state.(reconnectAttempts := attempt);
    }

    /** `reconnect_error` and `connect_error`: both branches are empty in the source. */
    method HandleReconnectError()
      ensures state == old(state)
    {
    }

    method HandleConnectError()
      ensures state == old(state)
    {
    }

    /** Reconnects only a disconnected socket that had been connected, pinning a truthy stored id first. */
    method AttemptReconnection()
      modifies socket`connectCalls, socket`auth
      ensures var fires := !socket.connected && state.wasConnected;
        && socket.connectCalls == old(socket.connectCalls) + (if fires then 1 else 0)
        && socket.auth == (if fires then PinnedAuth(old(socket.auth), StoredSessionId(storage)) else old(socket.auth))
    {
      if !socket.connected && state.wasConnected {
        var sessionId := StoredSessionId(storage);
        if Truthy(sessionId) {
          socket.auth := Fixed(WithSession(sessionId.value));
        }
        socket.Connect();
      }
    }

    function ShouldSuppressDisconnectUI(reason: string): (b: bool)
      reads this
      ensures b <==> state.isBackground && reason in SUPPRESSED_REASONS
    {
      Suppresses(state, reason)
    }

    /** A copy of the state; later events do not change a value already returned. */
    method GetState() returns (s: ResilienceState)
      ensures s == state
    {
      s := state;
    }
  }
}
