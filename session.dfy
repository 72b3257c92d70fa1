/** auth.service.ts: the session store. It holds the token and the user,
    mirrors them into browser storage (a string-to-string map here),
    restores them at start-up, and answers "is the user signed in" and "has the
    token expired". JSON (de)serialisation and the base64 decoding of the
    token's payload are abstract functions given at construction. */
module Session {
  import opened Common
  import opened Http
  import opened Navigation

  datatype User = User(id: int, email: string, firstName: string, lastName: string, phoneNumber: string)

  /** `getUserProfile()`: the user plus the two derived display fields. */
  datatype UserProfile = UserProfile(user: User, fullName: string, initials: string)

  datatype LoginResponse = LoginResponse(token: string, user: User)

  /** What `JSON.parse` makes of the stored user text: it may throw, and the
      text "null" parses to null. */
  datatype Parsed = ParseError | ParsedNull | ParsedUser(user: User)

  /** What `JSON.parse(atob(token.split('.')[1]))` yields: it may throw, and a
      payload without `exp` makes `exp * 1000` NaN. */
  datatype Payload = Undecodable | NoExpiry | ExpiresAt(exp: int)

  const TokenKey := "authToken"
  const UserKey := "currentUser"
  const LoginError := "Erreur de connexion"

  /** `localStorage.getItem(key)`. */
  function Stored(storage: map<string, string>, key: string): Option<string> {
    if key in storage then Some(storage[key]) else None
  }

  /** The three things start-up restoration can do to the session. */
  datatype Restoration = KeepEmpty | Adopt(token: string, user: Option<User>) | ClearStored

  /** `loadStoredAuth` exactly as written: a stored user text of "null"
      parses without throwing, so the token is adopted with a null user. */
  function RestoreAsWritten(storage: map<string, string>, parse: string -> Parsed): (r: Restoration)
    ensures r.KeepEmpty? <==> !(Truthy(Stored(storage, TokenKey)) && Truthy(Stored(storage, UserKey)))
    ensures r.ClearStored? <==> Truthy(Stored(storage, TokenKey)) && Truthy(Stored(storage, UserKey))
                                && parse(storage[UserKey]).ParseError?
    ensures r.Adopt? ==> r.token == storage[TokenKey]
    ensures r.Adopt? ==> (r.user.None? <==> parse(storage[UserKey]).ParsedNull?)
    ensures r.Adopt? && r.user.Some? ==> r.user == Some(parse(storage[UserKey]).user)
  {
    var t := Stored(storage, TokenKey);
    var u := Stored(storage, UserKey);
    if Truthy(t) && Truthy(u) then
      match parse(u.value)
      case ParseError => ClearStored
      case ParsedNull => Adopt(t.value, None)
      case ParsedUser(v) => Adopt(t.value, Some(v))
    else KeepEmpty
  }

  /** Storage holding a token and the user text "null" makes the as-written
      restoration adopt a token without a user. */
  lemma RestoreAsWrittenUnpairs(parse: string -> Parsed)
    requires parse("null") == ParsedNull
    ensures RestoreAsWritten(map[TokenKey := "t", UserKey := "null"], parse) == Adopt("t", None)
  {
    var s := map[TokenKey := "t", UserKey := "null"];
    assert Stored(s, TokenKey) == Some("t");
    assert Stored(s, UserKey) == Some("null");
  }

  /** `loadStoredAuth` with the evidently intended behaviour: only a parsed
      user object is adopted; anything else that is stored is cleared. */
  function Restore(storage: map<string, string>, parse: string -> Parsed): (r: Restoration)
    ensures r.Adopt? ==> r.user.Some?
    ensures r.KeepEmpty? <==> !(Truthy(Stored(storage, TokenKey)) && Truthy(Stored(storage, UserKey)))
    ensures r.Adopt? <==> Truthy(Stored(storage, TokenKey)) && Truthy(Stored(storage, UserKey))
                          && parse(storage[UserKey]).ParsedUser?
    ensures r.Adopt? ==> r.token == storage[TokenKey] && r.user == Some(parse(storage[UserKey]).user)
  {
    match RestoreAsWritten(storage, parse)
    case Adopt(t, None) => ClearStored
    case other => other
  }

  /** The two restorations differ only where storage holds the user "null". */
  lemma RestoreAgreesUnlessNull(storage: map<string, string>, parse: string -> Parsed)
    requires UserKey in storage ==> parse(storage[UserKey]) != ParsedNull
    ensures Restore(storage, parse) == RestoreAsWritten(storage, parse)
  {
  }

  /** `charAt(0)`: the first character, or "" for the empty string. */
  function Initial(s: string): string {
    if s == "" then "" else s[..1]
  }

  function ProfileOf(u: User): (p: UserProfile)
    ensures p.user == u
    ensures p.fullName == u.firstName + " " + u.lastName
    ensures |p.initials| <= 2
    ensures u.firstName != "" && u.lastName != "" ==>
              p.initials == [UpperChar(u.firstName[0]), UpperChar(u.lastName[0])]
    ensures u.firstName != "" && u.lastName == "" ==> p.initials == [UpperChar(u.firstName[0])]
    ensures u.firstName == "" && u.lastName != "" ==> p.initials == [UpperChar(u.lastName[0])]
    ensures u.firstName == "" && u.lastName == "" ==> p.initials == ""
  {
    UserProfile(u, u.firstName + " " + u.lastName, Upper(Initial(u.firstName) + Initial(u.lastName)))
  }

  /** `isTokenExpired`: no token or an undecodable payload counts as expired;
      otherwise the token expires strictly after `exp` seconds. */
  function TokenExpired(token: Option<string>, decode: string -> Payload, now: int): (expired: bool)
    ensures !Truthy(token) ==> expired
    ensures Truthy(token) && decode(token.value).Undecodable? ==> expired
    ensures Truthy(token) && decode(token.value).NoExpiry? ==> !expired
    ensures Truthy(token) && decode(token.value).ExpiresAt? ==>
              (expired <==> now > decode(token.value).exp * 1000)
  {
    if !Truthy(token) then true
    else match decode(token.value)
      case Undecodable => true
      // `Date.now() > NaN` is false
      case NoExpiry => false
      case ExpiresAt(exp) => now > exp * 1000
  }

  /** A token is still valid at the very millisecond of its expiry. */
  lemma ValidAtExpiry(t: string, decode: string -> Payload, exp: int)
    requires t != "" && decode(t) == ExpiresAt(exp)
    ensures !TokenExpired(Some(t), decode, exp * 1000)
    ensures TokenExpired(Some(t), decode, exp * 1000 + 1)
  {
  }

  /** The login reply after `map`: the envelope's data, or an `Error`. */
  function LoginStream(reply: Reply<LoginResponse>): Stream<LoginResponse> {
    Then(Received(reply), (env: ApiResponse<LoginResponse>) =>
      if !env.success || env.data.None? then Throws(ErrorThrown(if env.message != "" then env.message else LoginError))
      else Emits(env.data.value))
  }

  /** What `login` ends with: the data exactly when the reply succeeded and
      carried data; the server's error message or the default otherwise. */
  lemma LoginOutcome(reply: Reply<LoginResponse>)
    ensures var r := Rewrap(LoginStream(reply), LoginError);
      && (r.Ok? <==> reply.Delivered? && reply.envelope.success && reply.envelope.data.Some?)
      && (r.Ok? ==> r.value == reply.envelope.data.value)
      && (reply.Delivered? && r.Fail? ==> r.message == LoginError)
      && (reply.Failed? ==> r == Fail(OrElse(reply.error.serverMessage, LoginError)))
  {
  }

  class AuthService {
    var token: Option<string>
    var user: Option<User>
    var storage: map<string, string>
    const router: Router
    const serialize: User -> string
    const parse: string -> Parsed
    const decodePayload: string -> Payload

    /** The intended session invariant: a token exactly when a user. As
        written, restoration breaks it when the stored user text is "null". */
    ghost predicate Paired()
      reads this
    {
      token.Some? <==> user.Some?
    }

    /** What survives the as-written restoration: never a user without a token. */
    ghost predicate UserNeedsToken()
      reads this
    {
      user.Some? ==> token.Some?
    }

    constructor (router: Router, storage: map<string, string>,
                 serialize: User -> string, parse: string -> Parsed, decodePayload: string -> Payload)
      ensures this.router == router && this.serialize == serialize
      ensures this.parse == parse && this.decodePayload == decodePayload
      ensures UserNeedsToken()
      ensures var r := RestoreAsWritten(storage, parse); !(r.Adopt? && r.user.None?) ==> Paired()
      ensures RestoreAsWritten(storage, parse).KeepEmpty? ==> token == None && user == None && this.storage == storage
      ensures RestoreAsWritten(storage, parse).Adopt? ==>
                && token == Some(storage[TokenKey]) && user == RestoreAsWritten(storage, parse).user
                && this.storage == storage
      ensures RestoreAsWritten(storage, parse).ClearStored? ==>
                token == None && user == None && this.storage == storage - {TokenKey, UserKey}
    {
      this.router := router;
      this.serialize := serialize;
      this.parse := parse;
      this.decodePayload := decodePayload;
      this.storage := storage;
      token := None;
      user := None;
      new;
      LoadStoredAuth();
    }

    /** `loadStoredAuth` as written (see `Restore` for the corrected rule). */
    method LoadStoredAuth()
      modifies this
      ensures old(UserNeedsToken()) ==> UserNeedsToken()
      ensures var r := RestoreAsWritten(old(storage), parse);
        old(Paired()) && !(r.Adopt? && r.user.None?) ==> Paired()
      ensures RestoreAsWritten(old(storage), parse).KeepEmpty? ==>
                token == old(token) && user == old(user) && storage == old(storage)
      ensures RestoreAsWritten(old(storage), parse).Adopt? ==>
                && token == Some(old(storage)[TokenKey]) && user == RestoreAsWritten(old(storage), parse).user
                && storage == old(storage)
      ensures RestoreAsWritten(old(storage), parse).ClearStored? ==>
                token == None && user == None && storage == old(storage) - {TokenKey, UserKey}
    {
      var r := RestoreAsWritten(storage, parse);
      match r
      case KeepEmpty =>
      case Adopt(t, u) =>
        token := Some(t);
        user := u;
      case ClearStored =>
        ClearAuth();
    }

    method SetAuth(t: string, u: User)
      modifies this
      ensures Paired()
      ensures token == Some(t) && user == Some(u)
      ensures storage == old(storage)[TokenKey := t][UserKey := serialize(u)]
    {
      storage := storage[TokenKey := t][UserKey := serialize(u)];
      token := Some(t);
      user := Some(u);
    }

    method ClearAuth()
      modifies this
      ensures Paired()
      ensures token == None && user == None
      ensures storage == old(storage) - {TokenKey, UserKey}
    {
      storage := storage - {TokenKey, UserKey};
      token := None;
      user := None;
    }

    /** `login`: the post itself is the reply parameter; the `tap` stores the
        session only when the `map` step emitted. */
    method Login(reply: Reply<LoginResponse>) returns (r: Result<LoginResponse>)
      modifies this
      ensures r == Rewrap(LoginStream(reply), LoginError)
      ensures r.Ok? ==> Paired() && token == Some(r.value.token) && user == Some(r.value.user)
                        && storage == old(storage)[TokenKey := r.value.token][UserKey := serialize(r.value.user)]
      ensures r.Fail? ==> token == old(token) && user == old(user) && storage == old(storage)
    {
      var s := LoginStream(reply);
      if s.Emits? {
        SetAuth(s.value.token, s.value.user);
      }
      r := Rewrap(s, LoginError);
    }

    method Logout()
      modifies this, router
      ensures Paired()
      ensures token == None && user == None
      ensures storage == old(storage) - {TokenKey, UserKey}
      ensures router.history == old(router.history) + [To(LoginPath)]
    {
      ClearAuth();
      router.Navigate(To(LoginPath));
    }

    /** `isAuthenticated`: `!!token`. */
    function IsAuthenticated(): (b: bool)
      reads this
      ensures b <==> token.Some? && token.value != ""
    {
      Truthy(token)
    }

    /** `isTokenExpired` at `now`: a session that is not signed in always
        counts as expired. */
    function IsTokenExpired(now: int): (expired: bool)
      reads this
      ensures !IsAuthenticated() ==> expired
      ensures IsAuthenticated() ==> (expired <==> match decodePayload(token.value)
                                                  case Undecodable => true
                                                  case NoExpiry => false
                                                  case ExpiresAt(exp) => now > exp * 1000)
    {
      TokenExpired(token, decodePayload, now)
    }

    function GetUserProfile(): (p: Option<UserProfile>)
      reads this
      ensures p.None? <==> user.None?
      ensures p.Some? ==> p.value == ProfileOf(user.value)
    {
      match user
      case None => None
      case Some(u) => Some(ProfileOf(u))
    }
  }
}
