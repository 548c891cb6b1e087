/**
 * The browser side of session resumption in src/client/wetty/socket.ts: the socket.io path
 * derived from the page path, the single `localStorage` key holding the session id, the
 * `auth` payload offered on every handshake, and the handlers that keep the key current.
 */
module ClientSocket {
  import opened Base

  /** `trim`: drops every trailing slash (a regex replace of the final run of slashes). */
  function Trim(s: string): (r: string)
    ensures |r| <= |s| && r == s[..|r|]
    ensures r == [] || r[|r| - 1] != '/'
    ensures forall i :: |r| <= i < |s| ==> s[i] == '/'
    decreases |s|
  {
    if |s| > 0 && s[|s| - 1] == '/' then Trim(s[..|s| - 1]) else s
  }

  /** `k` slashes. */
  function Slashes(k: nat): (r: string)
    ensures |r| == k && forall i :: 0 <= i < k ==> r[i] == '/'
  {
    if k == 0 then [] else Slashes(k - 1) + ['/']
  }

  /** What `Trim` removes is a run of slashes: `s == Trim(s) + "/" * k`. */
  lemma TrimSplits(s: string)
    ensures s == Trim(s) + Slashes(|s| - |Trim(s)|)
  {
    var t, k := Trim(s), |s| - |Trim(s)|;
    assert forall i :: 0 <= i < |s| ==> s[i] == (t + Slashes(k))[i];
  }

  /** A string without a trailing slash followed by any run of slashes trims back to itself. */
  lemma {:induction false} TrimOfPadded(t: string, k: nat)
    requires t == [] || t[|t| - 1] != '/'
    ensures Trim(t + Slashes(k)) == t
    decreases k
  {
    if k == 0 {
      assert t + Slashes(0) == t;
    } else {
      assert (t + Slashes(k))[..|t| + k - 1] == t + Slashes(k - 1);
      TrimOfPadded(t, k - 1);
    }
  }

  /** Trimming twice is trimming once. */
  lemma TrimIdempotent(s: string)
    ensures Trim(Trim(s)) == Trim(s)
  {
  }

  /** A string that does not end in a slash is left alone. */
  lemma TrimKeepsUnslashed(s: string)
    requires s == [] || s[|s| - 1] != '/'
    ensures Trim(s) == s
  {
  }

  /** Index of the last slash in `s`, or -1. */
  function LastSlash(s: string): (r: int)
    ensures -1 <= r < |s|
    ensures r >= 0 ==> s[r] == '/'
    ensures forall i :: r < i < |s| ==> s[i] != '/'
    decreases |s|
  {
    if |s| == 0 then -1
    else if s[|s| - 1] == '/' then |s| - 1
    else LastSlash(s[..|s| - 1])
  }

  /** The pattern `ssh\/[^/]+$` matches `s` starting at position `i`. */
  ghost predicate SshSuffixAt(s: string, i: int) {
    && 0 <= i && i + 4 < |s|
    && s[i..i + 4] == "ssh/"
    && forall j :: i + 4 <= j < |s| ==> s[j] != '/'
  }

  /**
   * `s.replace(/ssh\/[^/]+$/, '')`: removes a final `ssh/<segment>` with a non-empty
   * slash-free segment, and otherwise returns `s`. The match, when there is one, starts
   * three characters before the last slash, so it is unique.
   */
  function StripSsh(s: string): (r: string)
    ensures forall i :: SshSuffixAt(s, i) ==> r == s[..i]
    ensures (forall i :: !SshSuffixAt(s, i)) ==> r == s
  {
    var j := LastSlash(s);
    SshSuffixUnique(s);
    if 3 <= j < |s| - 1 && s[j - 3..j] == "ssh" then
      assert SshSuffixAt(s, j - 3);
      s[..j - 3]
    else
      s
  }

  /** A match of `ssh\/[^/]+$` ends the `ssh` three characters before the last slash. */
  lemma SshSuffixUnique(s: string)
    ensures forall i :: SshSuffixAt(s, i) ==>
      var j := LastSlash(s);
      && i == j - 3 && 3 <= j < |s| - 1 && s[j - 3..j] == "ssh"
  {
    forall i | SshSuffixAt(s, i)
      ensures var j := LastSlash(s); i == j - 3 && 3 <= j < |s| - 1 && s[j - 3..j] == "ssh"
    {
      var j := LastSlash(s);
      assert s[i + 3] == s[i..i + 4][3] == '/';
      assert j == i + 3;
      assert s[j - 3..j] == s[i..i + 4][..3];
    }
  }

  /** `socketBase`: the page path, trimmed, without a final `ssh/<user>` segment. */
  function SocketBase(pathname: string): (r: string)
    ensures r <= Trim(pathname)
    ensures forall i :: SshSuffixAt(Trim(pathname), i) ==> r == Trim(pathname)[..i]
    ensures (forall i :: !SshSuffixAt(Trim(pathname), i)) ==> r == Trim(pathname)
  {
    StripSsh(Trim(pathname))
  }

  /** The `path` option handed to socket.io. */
  function SocketPath(pathname: string): (r: string)
    ensures |r| >= 10 && r[|r| - 10..] == "/socket.io"
    ensures r[..|r| - 10] == Trim(SocketBase(pathname))
  {
    Trim(SocketBase(pathname)) + "/socket.io"
  }

  /** What the client connects to is a prefix of the page path, followed by `/socket.io`. */
  lemma SocketPathUnderPage(pathname: string)
    ensures var r := SocketPath(pathname);
      && r[..|r| - 10] <= pathname
      && (r[..|r| - 10] == [] || r[|r| - 11] != '/')
  {
    var t := Trim(pathname);
    var b := StripSsh(t);
    assert t <= pathname;
    assert b <= t;
    var c := Trim(b);
    assert c <= b;
  }

  /** A terminal page `<base>/ssh/<user>` talks to `<base>/socket.io`. */
  lemma SshPageUsesBase(base: string, user: string)
    requires base == [] || base[|base| - 1] != '/'
    requires user != [] && forall j :: 0 <= j < |user| ==> user[j] != '/'
    ensures SocketPath(base + "/ssh/" + user) == base + "/socket.io"
  {
    var p := base + "/ssh/" + user;
    TrimKeepsUnslashed(p);
    assert SshSuffixAt(p, |base| + 1);
    assert p[..|base| + 1] == base + "/";
    assert base + "/" == base + Slashes(1);
    TrimOfPadded(base, 1);
  }

  const SESSION_STORAGE_KEY := "wetty_session_id"

  /**
   * The page's `localStorage`. `blocked`: every access throws (storage disabled);
   * `full`: writes throw (quota exceeded).
   */
  class Storage {
    var items: map<string, string>
    const blocked: bool
    const full: bool

    constructor (items: map<string, string>, blocked: bool, full: bool)
      ensures this.items == items && this.blocked == blocked && this.full == full
    {
      this.items := items;
      this.blocked := blocked;
      this.full := full;
    }
  }

  /** `getStoredSessionId`: the stored id, or null when there is none or storage throws. */
  function StoredSessionId(st: Storage): (r: Option<string>)
    reads st
    ensures st.blocked ==> r.None?
    ensures !st.blocked ==> (r.Some? <==> SESSION_STORAGE_KEY in st.items)
    ensures r.Some? ==> r.value == st.items[SESSION_STORAGE_KEY]
  {
    if st.blocked || SESSION_STORAGE_KEY !in st.items then None else Some(st.items[SESSION_STORAGE_KEY])
  }

  /** `storeSessionId`: a failing write is swallowed and leaves storage as it was. */
  method StoreSessionId(st: Storage, sessionId: string)
    modifies st`items
    ensures if st.blocked || st.full then st.items == old(st.items)
            else st.items == old(st.items)[SESSION_STORAGE_KEY := sessionId]
  {
    if !(st.blocked || st.full) {
      st.items := st.items[SESSION_STORAGE_KEY := sessionId];
    }
  }

  /** `clearStoredSessionId`: removes the key; a failing access is swallowed. */
  method ClearStoredSessionId(st: Storage)
    modifies st`items
    ensures if st.blocked then st.items == old(st.items)
            else st.items == old(st.items) - {SESSION_STORAGE_KEY}
  {
    if !st.blocked {
      st.items := st.items - {SESSION_STORAGE_KEY};
    }
  }

  /** The object passed to the `auth` callback: `{ sessionId }`, or `{}`. */
  datatype AuthData = NoSession | WithSession(sessionId: string)

  /** `sessionId ? { sessionId } : {}`. */
  function AuthPayload(stored: Option<string>): (a: AuthData)
    ensures a.WithSession? <==> Truthy(stored)
    ensures a.WithSession? ==> a.sessionId == stored.value
  {
    if Truthy(stored) then WithSession(stored.value) else NoSession
  }

  /** `socket.auth`: the callback installed at construction, or an object assigned later. */
  datatype Auth = FromStorage | Fixed(data: AuthData)

  /** `socket.handshake.auth?.sessionId` as the server reads it when this client connects. */
  function Presented(auth: Auth, stored: Option<string>): (h: Option<string>)
    ensures auth.FromStorage? ==> (Truthy(h) <==> Truthy(stored)) && (Truthy(h) ==> h == stored)
    ensures auth.Fixed? && auth.data.WithSession? ==> h == Some(auth.data.sessionId)
    ensures auth.Fixed? && auth.data.NoSession? ==> h.None?
  {
    var data := if auth.FromStorage? then AuthPayload(stored) else auth.data;
    if data.WithSession? then Some(data.sessionId) else None
  }

  /**
   * `if (sessionId) socket.auth = { sessionId }`: the `reconnect_attempt` handler and
   * `attemptReconnection` both pin the stored id, and only a truthy one.
   */
  function PinnedAuth(auth: Auth, stored: Option<string>): (a: Auth)
    ensures Truthy(stored) ==> a == Fixed(WithSession(stored.value))
    ensures !Truthy(stored) ==> a == auth
  {
    if Truthy(stored) then Fixed(WithSession(stored.value)) else auth
  }

  /** Pinning never changes which id the next handshake presents for the same stored value. */
  lemma PinningPresentsStoredId(auth: Auth, stored: Option<string>)
    requires auth.FromStorage?
    ensures Presented(PinnedAuth(auth, stored), stored) == Presented(auth, stored)
  {
  }

  /**
   * Once pinned, the object outlives the key: after the id is cleared from storage the
   * handshake still presents it, until a later pin replaces it.
   */
  lemma PinnedIdOutlivesClear(auth: Auth, id: string)
    requires id != ""
    ensures var pinned := PinnedAuth(auth, Some(id));
      && Presented(pinned, None) == Some(id)
      && PinnedAuth(pinned, None) == pinned
  {
  }

  /** The client's socket.io handle: whether it is connected, its `auth`, and `connect()` calls. */
  class IoSocket {
    var connected: bool
    var auth: Auth
    var connectCalls: nat

    constructor ()
      ensures !connected && auth == FromStorage && connectCalls == 0
    {
      connected := false;
      auth := FromStorage;
      connectCalls := 0;
    }

    method Connect()
      modifies this`connectCalls
      ensures connectCalls == old(connectCalls) + 1
    {
      connectCalls := connectCalls + 1;
    }
  }

  /** The four socket handlers registered at module load. */
  class SessionClient {
    const socket: IoSocket
    const storage: Storage

    constructor (socket: IoSocket, storage: Storage)
      ensures this.socket == socket && this.storage == storage
    {
      this.socket := socket;
      this.storage := storage;
    }

    /** `session-id`: remember the id the server assigned. */
    method OnSessionId(sessionId: string)
      modifies storage`items
      ensures !storage.blocked && !storage.full ==>
        storage.items == old(storage.items)[SESSION_STORAGE_KEY := sessionId] &&
        StoredSessionId(storage) == Some(sessionId)
      ensures storage.blocked || storage.full ==> storage.items == old(storage.items)
    {
      StoreSessionId(storage, sessionId);
    }

    /** `logout`: forget the id. */
    method OnLogout()
      modifies storage`items
      ensures StoredSessionId(storage).None?
      ensures storage.items == if storage.blocked then old(storage.items) else old(storage.items) - {SESSION_STORAGE_KEY}
    {
      ClearStoredSessionId(storage);
    }

    /** `clear-session-id`: the server no longer knows the id; forget it. */
    method OnClearSessionId()
      modifies storage`items
      ensures StoredSessionId(storage).None?
      ensures storage.items == if storage.blocked then old(storage.items) else old(storage.items) - {SESSION_STORAGE_KEY}
    {
      ClearStoredSessionId(storage);
    }

    /** `reconnect_attempt`: pin the stored id into `socket.auth` if there is a truthy one. */
    method OnReconnectAttempt()
      modifies socket`auth
      ensures socket.auth == PinnedAuth(old(socket.auth), StoredSessionId(storage))
    {
      var sessionId := StoredSessionId(storage);
      if Truthy(sessionId) {
        socket.auth := Fixed(WithSession(sessionId.value));
      }
    }
  }

  /**
   * With working storage, an id assigned by the server is presented on the next reconnect,
   * whether `auth` is still the callback or already holds an id pinned by an earlier attempt:
   * the attempt pins the newly stored id over the old one.
   */
  method ReconnectPresentsAssignedId(client: SessionClient, sessionId: string) returns (h: Option<string>)
    requires !client.storage.blocked && !client.storage.full
    requires sessionId != ""
    modifies client.storage`items, client.socket`auth
    ensures h == Some(sessionId)
  {
    client.OnSessionId(sessionId);
    client.OnReconnectAttempt();
    h := Presented(client.socket.auth, StoredSessionId(client.storage));
  }
}
