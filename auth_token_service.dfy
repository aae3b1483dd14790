/** The process-wide AuthTokenService: private fields written step by step by its
    setters, write-through to the secure store, and the AuthenticationChanged event
    recorded as an append to `events`. Every method is proved to move the object's
    state exactly as the matching function of SessionSpec does, so the lemmas proved
    there hold of the object. */
module AuthTokens {
  import opened Wrappers
  import opened SessionSpec

  class AuthTokenService {
    var token: Option<string>
    var expiration: Option<Timestamp>
    var userId: Option<string>
    /** `_isAuthenticated`: the value last broadcast, used only to detect changes. */
    var isAuthenticated: bool
    /** The platform's SecureStorage, as far as these three keys go. */
    var store: map<string, string>
    /** Every AuthenticationChanged broadcast, oldest first. */
    var events: seq<bool>
    /** `DateTime.ToString("O")`, the text the expiration is stored as. */
    const format: Timestamp -> string
    /** `DateTime.TryParse`. */
    const parse: string -> Option<Timestamp>

    function State(): SessionState
      reads this
    {
      SessionState(token, expiration, userId, isAuthenticated, store, events)
    }

    /** The singleton the dependency container creates: nothing in memory, over the
        store a previous run left behind. */
    constructor (store: map<string, string>, format: Timestamp -> string, parse: string -> Option<Timestamp>)
      ensures State() == Initial(store)
      ensures this.format == format && this.parse == parse
    {
      token := None;
      expiration := None;
      userId := None;
      isAuthenticated := false;
      this.store := store;
      events := [];
      this.format := format;
      this.parse := parse;
    }

    /** The `Token` setter. */
    method SetToken(value: Option<string>)
      modifies this
      ensures State() == SessionSpec.SetToken(old(State()), value)
    {
      token := value;
      if value.Some? {
        store := store[AuthTokenKey := value.value];
      } else {
        store := store - {AuthTokenKey};
      }
    }

    /** The `Expiration` setter. */
    method SetExpiration(value: Option<Timestamp>)
      modifies this
      ensures State() == SessionSpec.SetExpiration(old(State()), value, format)
    {
      expiration := value;
      if value.Some? {
        store := store[TokenExpirationKey := format(value.value)];
      } else {
        store := store - {TokenExpirationKey};
      }
    }

    /** The `UserId` setter. */
    method SetUserId(value: Option<string>)
      modifies this
      ensures State() == SessionSpec.SetUserId(old(State()), value)
    {
      userId := value;
      if value.Some? {
        store := store[UserIdKey := value.value];
      } else {
        store := store - {UserIdKey};
      }
    }

    /** The `IsAuthenticated` getter. */
    function IsAuthenticated(now: Timestamp): (b: bool)
      reads this
      ensures b <==> token.Some? && token.value != "" && expiration.Some? && now < expiration.value
    {
      SessionSpec.IsAuthenticated(State(), now)
    }

    method SetAuthentication(isAuthenticated: bool)
      modifies this
      ensures State() == SessionSpec.SetAuthentication(old(State()), isAuthenticated)
    {
      if !isAuthenticated {
        token := None;
        expiration := None;
        userId := None;
        store := store - {AuthTokenKey};
        store := store - {TokenExpirationKey};
        store := store - {UserIdKey};
        assert store == old(store) - {AuthTokenKey, TokenExpirationKey, UserIdKey};
      }
      if this.isAuthenticated != isAuthenticated {
        this.isAuthenticated := isAuthenticated;
        events := events + [isAuthenticated];
      }
    }

    /** Start-up: restore from the store, then `SetAuthentication(IsAuthenticated)`. */
    method InitializeAsync(now: Timestamp)
      modifies this
      ensures State() == SessionSpec.InitializeAsync(old(State()), now, parse)
    {
      token := Lookup(store, AuthTokenKey);
      userId := Lookup(store, UserIdKey);
      var expirationText := Lookup(store, TokenExpirationKey);
      var parsed := TryParse(expirationText, parse);
      if parsed.Some? {
        expiration := parsed;
      }
      var authenticated := IsAuthenticated(now);
      SetAuthentication(authenticated);
    }

    method Clear()
      modifies this
      ensures State() == SessionSpec.Clear(old(State()))
    {
      SetAuthentication(false);
    }

    function GetUserId(): (id: string)
      reads this
      ensures userId.None? ==> id == ""
      ensures userId.Some? ==> id == userId.value
    {
      userId.GetOr("")
    }
  }

  /** Log in, then log out, as the pages and the shell do: the store ends empty of the
      three keys and the shell hears `true` and then `false`. */
  method LoginThenLogout(store: map<string, string>, format: Timestamp -> string, parse: string -> Option<Timestamp>,
                         token: string, expiry: Timestamp, id: string, now: Timestamp)
    returns (session: AuthTokenService)
    requires token != "" && now < expiry
    ensures AuthTokenKey !in session.store && TokenExpirationKey !in session.store && UserIdKey !in session.store
    ensures session.events == [true, false]
    ensures !session.IsAuthenticated(now) && session.GetUserId() == ""
  {
    session := new AuthTokenService(store, format, parse);
    session.SetToken(Some(token));
    session.SetExpiration(Some(expiry));
    session.SetUserId(Some(id));
    session.SetAuthentication(true);
    assert session.IsAuthenticated(now) && session.GetUserId() == id;
    session.Clear();
  }
}
