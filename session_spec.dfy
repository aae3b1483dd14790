/** The session held by AuthTokenService, as a value: the three credentials, the
    edge-trigger flag behind AuthenticationChanged, the secure store they are written
    through to, and the log of every AuthenticationChanged broadcast. Each operation
    of the service is a function from the state before to the state after; the class
    in auth_token_service.dfy is proved to follow them. */
module SessionSpec {
  import opened Wrappers
  import opened Text

  /** A point in time. `DateTime` arithmetic is not modelled, only the order. */
  type Timestamp = int

  const AuthTokenKey := "auth_token"
  const TokenExpirationKey := "token_expiration"
  const UserIdKey := "user_id"

  /** `SecureStorage.GetAsync`: the stored value, or null when the key is absent. */
  function Lookup(store: map<string, string>, key: string): Option<string> {
    if key in store then Some(store[key]) else None
  }

  /** `SecureStorage.SetAsync` when `value` is present, `SecureStorage.Remove` when it
      is null. */
  function WriteThrough(store: map<string, string>, key: string, value: Option<string>): (r: map<string, string>)
    ensures Lookup(r, key) == value
    ensures forall k :: k != key ==> Lookup(r, k) == Lookup(store, k)
  {
    if value.Some? then store[key := value.value] else store - {key}
  }

  datatype SessionState = SessionState(
    token: Option<string>,
    expiration: Option<Timestamp>,
    userId: Option<string>,
    isAuthenticated: bool,
    store: map<string, string>,
    events: seq<bool>)

  /** The service as the dependency container creates it: nothing in memory, the flag
      down, and whatever a previous run left in the store. */
  function Initial(store: map<string, string>): (s: SessionState)
    ensures s.token.None? && s.expiration.None? && s.userId.None?
    ensures !s.isAuthenticated && s.events == [] && s.store == store
  {
    SessionState(None, None, None, false, store, [])
  }

  /** The `IsAuthenticated` getter: a non-empty token and an expiration strictly
      after `now`. A null expiration compares false, as C#'s lifted `>` does. */
  predicate IsAuthenticated(s: SessionState, now: Timestamp) {
    !IsNullOrEmpty(s.token) && s.expiration.Some? && s.expiration.value > now
  }

  /** The `Token` setter. */
  function SetToken(s: SessionState, value: Option<string>): (t: SessionState)
    ensures t.token == value
    ensures Lookup(t.store, AuthTokenKey) == value
    ensures forall k :: k != AuthTokenKey ==> Lookup(t.store, k) == Lookup(s.store, k)
    ensures t.expiration == s.expiration && t.userId == s.userId
    ensures t.isAuthenticated == s.isAuthenticated && t.events == s.events
  {
    s.(token := value, store := WriteThrough(s.store, AuthTokenKey, value))
  }

  /** The `Expiration` setter; `format` is `DateTime.ToString("O")`. */
  function SetExpiration(s: SessionState, value: Option<Timestamp>, format: Timestamp -> string): (t: SessionState)
    ensures t.expiration == value
    ensures Lookup(t.store, TokenExpirationKey) == if value.Some? then Some(format(value.value)) else None
    ensures forall k :: k != TokenExpirationKey ==> Lookup(t.store, k) == Lookup(s.store, k)
    ensures t.token == s.token && t.userId == s.userId
    ensures t.isAuthenticated == s.isAuthenticated && t.events == s.events
  {
    var stored := if value.Some? then Some(format(value.value)) else None;
    s.(expiration := value, store := WriteThrough(s.store, TokenExpirationKey, stored))
  }

  /** The `UserId` setter. */
  function SetUserId(s: SessionState, value: Option<string>): (t: SessionState)
    ensures t.userId == value
    ensures Lookup(t.store, UserIdKey) == value
    ensures forall k :: k != UserIdKey ==> Lookup(t.store, k) == Lookup(s.store, k)
    ensures t.token == s.token && t.expiration == s.expiration
    ensures t.isAuthenticated == s.isAuthenticated && t.events == s.events
  {
    s.(userId := value, store := WriteThrough(s.store, UserIdKey, value))
  }

  /** `SetAuthentication`: lowering the flag wipes the credentials and their keys every
      time; the event fires only when the flag changes, and carries the new value. */
  function SetAuthentication(s: SessionState, isAuthenticated: bool): (t: SessionState)
    ensures t.isAuthenticated == isAuthenticated
    ensures t.events == s.events + if s.isAuthenticated != isAuthenticated then [isAuthenticated] else []
    ensures !isAuthenticated ==> t.token.None? && t.expiration.None? && t.userId.None?
    ensures !isAuthenticated ==> AuthTokenKey !in t.store && TokenExpirationKey !in t.store && UserIdKey !in t.store
    ensures !isAuthenticated ==> forall k :: k != AuthTokenKey && k != TokenExpirationKey && k != UserIdKey ==>
      Lookup(t.store, k) == Lookup(s.store, k)
    ensures isAuthenticated ==> t.token == s.token && t.expiration == s.expiration && t.userId == s.userId
    ensures isAuthenticated ==> t.store == s.store
  {
    var cleared :=
      if isAuthenticated then s
      else s.(token := None, expiration := None, userId := None,
               store := s.store - {AuthTokenKey, TokenExpirationKey, UserIdKey});
    if s.isAuthenticated != isAuthenticated then
      cleared.(isAuthenticated := isAuthenticated, events := s.events + [isAuthenticated])
    else
      cleared
  }

  /** `Clear`: logging out. */
  function Clear(s: SessionState): (t: SessionState)
    ensures t == SetAuthentication(s, false)
  {
    SetAuthentication(s, false)
  }

  /** `GetUserId`: never null. */
  function GetUserId(s: SessionState): (id: string)
    ensures s.userId.None? ==> id == ""
    ensures s.userId.Some? ==> id == s.userId.value
  {
    s.userId.GetOr("")
  }

  /** `DateTime.TryParse` on what the store held; it fails on null. */
  function TryParse(stored: Option<string>, parse: string -> Option<Timestamp>): Option<Timestamp> {
    if stored.Some? then parse(stored.value) else None
  }

  /** The reads at the start of `InitializeAsync`: token and user id come straight
      from the store, the expiration only when the stored text parses; otherwise the
      expiration already in memory stays. */
  function Restore(s: SessionState, parse: string -> Option<Timestamp>): (t: SessionState)
    ensures t.token == Lookup(s.store, AuthTokenKey) && t.userId == Lookup(s.store, UserIdKey)
    ensures var parsed := TryParse(Lookup(s.store, TokenExpirationKey), parse);
      t.expiration == if parsed.Some? then parsed else s.expiration
    ensures t.store == s.store && t.isAuthenticated == s.isAuthenticated && t.events == s.events
  {
    var parsed := TryParse(Lookup(s.store, TokenExpirationKey), parse);
    s.(token := Lookup(s.store, AuthTokenKey),
       userId := Lookup(s.store, UserIdKey),
       expiration := if parsed.Some? then parsed else s.expiration)
  }

  /** `InitializeAsync`: restore, then `SetAuthentication(IsAuthenticated)`. */
  function InitializeAsync(s: SessionState, now: Timestamp, parse: string -> Option<Timestamp>): (t: SessionState)
    ensures var r := Restore(s, parse);
      && t.isAuthenticated == IsAuthenticated(r, now)
      && (t.isAuthenticated ==> t.token == r.token && t.expiration == r.expiration && t.userId == r.userId && t.store == s.store)
      && (!t.isAuthenticated ==> t.token.None? && t.expiration.None? && t.userId.None?)
      && (!t.isAuthenticated ==> AuthTokenKey !in t.store && TokenExpirationKey !in t.store && UserIdKey !in t.store)
      && (!t.isAuthenticated ==> forall k :: k != AuthTokenKey && k != TokenExpirationKey && k != UserIdKey ==>
            Lookup(t.store, k) == Lookup(s.store, k))
      && t.events == s.events + if s.isAuthenticated != t.isAuthenticated then [t.isAuthenticated] else []
  {
    var r := Restore(s, parse);
    SetAuthentication(r, IsAuthenticated(r, now))
  }

  /** `SetAuthentication` is idempotent: a second call with the same flag changes
      nothing and fires nothing. */
  lemma SetAuthenticationIdempotent(s: SessionState, isAuthenticated: bool)
    ensures SetAuthentication(SetAuthentication(s, isAuthenticated), isAuthenticated)
         == SetAuthentication(s, isAuthenticated)
  {
  }

  /** Logging out twice is logging out once. */
  lemma ClearIdempotent(s: SessionState)
    ensures Clear(Clear(s)) == Clear(s)
  {
    SetAuthenticationIdempotent(s, false);
  }

  /** Start-up with a stored expiry that is past, missing or unreadable: all three
      keys are removed and, the flag being down already, nothing fires. */
  lemma InitializeWithStaleExpiryWipes(store: map<string, string>, now: Timestamp, parse: string -> Option<Timestamp>)
    requires var e := TryParse(Lookup(store, TokenExpirationKey), parse); e.None? || e.value <= now
    ensures var t := InitializeAsync(Initial(store), now, parse);
      && !t.isAuthenticated && t.events == []
      && t.token.None? && t.expiration.None? && t.userId.None?
      && t.store == store - {AuthTokenKey, TokenExpirationKey, UserIdKey}
  {
  }

  /** Start-up with a non-empty stored token and a future expiry: the flag goes up,
      `true` fires once, and the stored user id (or "") is what `GetUserId` returns. */
  lemma InitializeWithLiveSessionAuthenticates(store: map<string, string>, now: Timestamp, parse: string -> Option<Timestamp>)
    requires !IsNullOrEmpty(Lookup(store, AuthTokenKey))
    requires var e := TryParse(Lookup(store, TokenExpirationKey), parse); e.Some? && e.value > now
    ensures var t := InitializeAsync(Initial(store), now, parse);
      && t.isAuthenticated && t.events == [true] && IsAuthenticated(t, now)
      && t.store == store
      && GetUserId(t) == Lookup(store, UserIdKey).GetOr("")
  {
  }

  /** The flag is bookkeeping for the event, not the derived state: raising it does
      not need a token, and once up it stays up when the expiry passes. */
  lemma FlagCanDisagreeWithGetter(now: Timestamp)
    ensures var t := SetAuthentication(Initial(map[]), true);
      t.isAuthenticated && !IsAuthenticated(t, now)
  {
  }

  /** The operations a client of the service can perform, in any order. */
  datatype Op =
    | SetTokenOp(token: Option<string>)
    | SetExpirationOp(expiration: Option<Timestamp>)
    | SetUserIdOp(userId: Option<string>)
    | SetAuthenticationOp(isAuthenticated: bool)
    | ClearOp
    | InitializeOp(now: Timestamp)

  function Step(s: SessionState, op: Op, format: Timestamp -> string, parse: string -> Option<Timestamp>): SessionState {
    match op
    case SetTokenOp(v) => SetToken(s, v)
    case SetExpirationOp(v) => SetExpiration(s, v, format)
    case SetUserIdOp(v) => SetUserId(s, v)
    case SetAuthenticationOp(b) => SetAuthentication(s, b)
    case ClearOp => Clear(s)
    case InitializeOp(now) => InitializeAsync(s, now, parse)
  }

  function Run(s: SessionState, ops: seq<Op>, format: Timestamp -> string, parse: string -> Option<Timestamp>): SessionState
    decreases |ops|
  {
    if ops == [] then s else Run(Step(s, ops[0], format, parse), ops[1..], format, parse)
  }

  /** The broadcasts so far alternate `true`, `false`, `true`, ... and the flag is the
      last one broadcast (down when none was). */
  ghost predicate EventsAlternate(s: SessionState) {
    && (forall i :: 0 <= i < |s.events| ==> s.events[i] == (i % 2 == 0))
    && s.isAuthenticated == (|s.events| % 2 == 1)
  }

  lemma StepKeepsEventsAlternating(s: SessionState, op: Op, format: Timestamp -> string, parse: string -> Option<Timestamp>)
    requires EventsAlternate(s)
    ensures EventsAlternate(Step(s, op, format, parse))
  {
  }

  lemma {:induction false} RunKeepsEventsAlternating(s: SessionState, ops: seq<Op>, format: Timestamp -> string, parse: string -> Option<Timestamp>)
    requires EventsAlternate(s)
    ensures EventsAlternate(Run(s, ops, format, parse))
    decreases |ops|
  {
    if ops != [] {
      StepKeepsEventsAlternating(s, ops[0], format, parse);
      RunKeepsEventsAlternating(Step(s, ops[0], format, parse), ops[1..], format, parse);
    }
  }

  /** Whatever the service is asked to do, AuthenticationChanged never repeats a
      value: the first broadcast is `true`, each later one is the opposite of the one
      before, and the flag equals the last broadcast. */
  lemma {:induction false} EventsAlwaysAlternate(store: map<string, string>, ops: seq<Op>, format: Timestamp -> string, parse: string -> Option<Timestamp>)
    ensures var t := Run(Initial(store), ops, format, parse);
      && (t.events != [] ==> t.events[0])
      && (forall i :: 0 < i < |t.events| ==> t.events[i] != t.events[i - 1])
      && (t.events != [] ==> t.isAuthenticated == t.events[|t.events| - 1])
      && (t.events == [] ==> !t.isAuthenticated)
  {
    RunKeepsEventsAlternating(Initial(store), ops, format, parse);
  }

  /** `format` and `parse` agree: what `Expiration` stores reads back as itself. */
  ghost predicate RoundTrips(format: Timestamp -> string, parse: string -> Option<Timestamp>) {
    forall t :: parse(format(t)) == Some(t)
  }

  /** The credentials in memory are exactly what the store would restore. */
  ghost predicate MirrorsStore(s: SessionState, parse: string -> Option<Timestamp>) {
    && s.token == Lookup(s.store, AuthTokenKey)
    && s.userId == Lookup(s.store, UserIdKey)
    && s.expiration == TryParse(Lookup(s.store, TokenExpirationKey), parse)
  }

  lemma StepKeepsMirror(s: SessionState, op: Op, format: Timestamp -> string, parse: string -> Option<Timestamp>)
    requires RoundTrips(format, parse) && MirrorsStore(s, parse)
    ensures MirrorsStore(Step(s, op, format, parse), parse)
  {
    if op.SetExpirationOp? && op.expiration.Some? {
      var e: Timestamp := op.expiration.value;
      assert RoundTrips(format, parse);
      assert parse(format(e)) == Some(e);
    }
  }

  lemma {:induction false} RunKeepsMirror(s: SessionState, ops: seq<Op>, format: Timestamp -> string, parse: string -> Option<Timestamp>)
    requires RoundTrips(format, parse) && MirrorsStore(s, parse)
    ensures MirrorsStore(Run(s, ops, format, parse), parse)
    decreases |ops|
  {
    if ops != [] {
      StepKeepsMirror(s, ops[0], format, parse);
      RunKeepsMirror(Step(s, ops[0], format, parse), ops[1..], format, parse);
    }
  }

  /** A restart is a fresh service over the same store. After start-up initialisation
      and any sequence of operations, a restart sees the same credentials if they are
      still valid, and a wiped store otherwise. */
  lemma {:induction false} RestartRestoresSession(store: map<string, string>, start: Timestamp, ops: seq<Op>, now: Timestamp,
                                                  format: Timestamp -> string, parse: string -> Option<Timestamp>)
    requires RoundTrips(format, parse)
    ensures var s := Run(InitializeAsync(Initial(store), start, parse), ops, format, parse);
      var r := InitializeAsync(Initial(s.store), now, parse);
      && (IsAuthenticated(s, now) ==>
            r.token == s.token && r.expiration == s.expiration && r.userId == s.userId
            && r.isAuthenticated && r.events == [true] && r.store == s.store)
      && (!IsAuthenticated(s, now) ==>
            !r.isAuthenticated && r.events == []
            && r.token.None? && r.expiration.None? && r.userId.None?
            && r.store == s.store - {AuthTokenKey, TokenExpirationKey, UserIdKey})
  {
    var s0 := InitializeAsync(Initial(store), start, parse);
    assert MirrorsStore(s0, parse);
    RunKeepsMirror(s0, ops, format, parse);
  }
}
