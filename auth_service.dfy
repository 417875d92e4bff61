/**
 * The authentication service's own logic. Browser storage is a map from key
 * to text; the token's payload, once decoded, is a map of claims, and the
 * decoding itself (splitting the token, base64 and `JSON.parse`) is a
 * function the caller supplies, which may fail. The stored user is kept as
 * text produced by a supplied `stringify`.
 */
module AuthService {
  import opened Common

  const TokenKey := "gymunity_trainer_token"
  const UserKey := "gymunity_trainer_user"
  const UserIdKey := "gymunity_trainer_userId"

  const TrainerRole := "Trainer"
  const ClientRole := "Client"

  datatype AuthResponse = AuthResponse(
    id: string, name: string, userName: string, email: string,
    role: string, profilePhotoUrl: string, token: string)

  datatype User = User(
    id: string, name: string, userName: string, email: string,
    role: string, profilePhotoUrl: string)

  /** The outcome of decoding a token's payload: a thrown error, or its claims. */
  datatype DecodeResult = DecodeFailure | Payload(claims: map<string, string>)

  /** The claim names tried for the user id, in order (the second is the `sub` claim of RFC 7519, section 4.1.2). */
  const UserIdClaims := ["userId", "sub", "http://schemas.xmlsoap.org/ws/2005/05/identity/claims/nameidentifier"]

  /** A claim is usable when it is present and truthy (non-empty). */
  predicate ClaimSet(claims: map<string, string>, name: string)
  {
    name in claims && claims[name] != ""
  }

  /** `a || b || c`: the first truthy claim among `names`. */
  function FirstTruthy(claims: map<string, string>, names: seq<string>): Option<string>
  {
    if names == [] then None
    else if ClaimSet(claims, names[0]) then Some(claims[names[0]])
    else FirstTruthy(claims, names[1..])
  }

  /**
   * `FirstTruthy` finds nothing exactly when no listed claim is set, and
   * otherwise gives the value of the first listed claim that is.
   */
  lemma {:induction false} FirstTruthyMeans(claims: map<string, string>, names: seq<string>)
    ensures FirstTruthy(claims, names).None? <==> forall i :: 0 <= i < |names| ==> !ClaimSet(claims, names[i])
    ensures FirstTruthy(claims, names).Some? ==>
      exists i :: 0 <= i < |names| && ClaimSet(claims, names[i]) &&
        FirstTruthy(claims, names).value == claims[names[i]] &&
        forall j :: 0 <= j < i ==> !ClaimSet(claims, names[j])
    decreases |names|
  {
    if names != [] && !ClaimSet(claims, names[0]) {
      FirstTruthyMeans(claims, names[1..]);
      if FirstTruthy(claims, names[1..]).Some? {
        var i :| 0 <= i < |names[1..]| && ClaimSet(claims, names[1..][i]) &&
          FirstTruthy(claims, names[1..]).value == claims[names[1..][i]] &&
          forall j :: 0 <= j < i ==> !ClaimSet(claims, names[1..][j]);
        assert ClaimSet(claims, names[i + 1]);
        assert forall j :: 0 <= j < i + 1 ==> !ClaimSet(claims, names[j]) by {
          forall j | 0 <= j < i + 1 ensures !ClaimSet(claims, names[j]) {
            if j > 0 { assert names[j] == names[1..][j - 1]; }
          }
        }
      } else {
        assert forall i :: 0 <= i < |names| ==> !ClaimSet(claims, names[i]) by {
          forall i | 0 <= i < |names| ensures !ClaimSet(claims, names[i]) {
            if i > 0 { assert names[i] == names[1..][i - 1]; }
          }
        }
      }
    }
  }

  /** The user id a decoded token yields: nothing on a decode failure or without a usable claim. */
  function TokenUserId(d: DecodeResult): (r: Option<string>)
    ensures d.DecodeFailure? ==> r.None?
    ensures r.Some? ==> r.value != ""
  {
    if d.DecodeFailure? then None
    else
      FirstTruthyMeans(d.claims, UserIdClaims);
      FirstTruthy(d.claims, UserIdClaims)
  }

  /** The claim precedence spelled out: `userId`, then `sub`, then `nameidentifier`. */
  lemma TokenUserIdPrecedence(claims: map<string, string>)
    ensures ClaimSet(claims, "userId") ==> TokenUserId(Payload(claims)) == Some(claims["userId"])
    ensures !ClaimSet(claims, "userId") && ClaimSet(claims, "sub") ==>
      TokenUserId(Payload(claims)) == Some(claims["sub"])
    ensures !ClaimSet(claims, "userId") && !ClaimSet(claims, "sub") && ClaimSet(claims, UserIdClaims[2]) ==>
      TokenUserId(Payload(claims)) == Some(claims[UserIdClaims[2]])
    ensures !ClaimSet(claims, "userId") && !ClaimSet(claims, "sub") && !ClaimSet(claims, UserIdClaims[2]) ==>
      TokenUserId(Payload(claims)).None?
  {
    var n := UserIdClaims;
    assert n[1..] == ["sub", n[2]] && n[1..][1..] == [n[2]] && [n[2]][1..] == [];
    assert !ClaimSet(claims, "userId") ==> FirstTruthy(claims, n) == FirstTruthy(claims, n[1..]);
    assert !ClaimSet(claims, "sub") ==> FirstTruthy(claims, n[1..]) == FirstTruthy(claims, [n[2]]);
    assert !ClaimSet(claims, n[2]) ==> FirstTruthy(claims, [n[2]]) == FirstTruthy(claims, []);
  }

  /**
   * The user id `handleAuthResponse` settles on: the response's own id when
   * it is non-empty, else the token's claim, else the empty text.
   */
  function ResolvedUserId(r: AuthResponse, decode: string -> DecodeResult): (id: string)
    ensures r.id != "" ==> id == r.id
    ensures r.id == "" && decode(r.token).DecodeFailure? ==> id == ""
    ensures r.id == "" && id != "" ==> TokenUserId(decode(r.token)) == Some(id)
    ensures r.id == "" && id == "" ==> TokenUserId(decode(r.token)).None?
  {
    if r.id != "" then r.id else OrText(TokenUserId(decode(r.token)), "")
  }

  /** The user record built from a response and the resolved id. */
  function UserOf(r: AuthResponse, id: string): User
  {
    User(id, r.name, r.userName, r.email, r.role, r.profilePhotoUrl)
  }

  /** `hasToken`: a stored, non-empty token. */
  predicate HasTokenIn(storage: map<string, string>)
  {
    PresentText(StoredText(storage, TokenKey))
  }

  /**
   * `getUserIdFromToken` on a storage: the stored user id when truthy; with
   * no token nothing; otherwise the token's claim, nothing on a decode failure.
   */
  function UserIdFromStorage(storage: map<string, string>, decode: string -> DecodeResult): (r: Option<string>)
    ensures r.Some? ==> r.value != ""
    ensures PresentText(StoredText(storage, UserIdKey)) ==> r == StoredText(storage, UserIdKey)
    ensures !PresentText(StoredText(storage, UserIdKey)) && !HasTokenIn(storage) ==> r.None?
    ensures !PresentText(StoredText(storage, UserIdKey)) && HasTokenIn(storage) ==>
      r == TokenUserId(decode(storage[TokenKey]))
  {
    var stored := StoredText(storage, UserIdKey);
    if PresentText(stored) then stored
    else
      var token := StoredText(storage, TokenKey);
      if !PresentText(token) then None else TokenUserId(decode(token.value))
  }

  /** The storage after `handleAuthResponse`: token, user id and user record written. */
  function AfterLogin(storage: map<string, string>, r: AuthResponse, decode: string -> DecodeResult,
                      stringify: User -> string): (s: map<string, string>)
    ensures s.Keys == storage.Keys + {TokenKey, UserIdKey, UserKey}
    ensures forall k :: k in storage && k !in {TokenKey, UserIdKey, UserKey} ==> s[k] == storage[k]
    ensures s[TokenKey] == r.token && s[UserIdKey] == ResolvedUserId(r, decode)
    ensures s[UserKey] == stringify(UserOf(r, ResolvedUserId(r, decode)))
  {
    var id := ResolvedUserId(r, decode);
    storage[TokenKey := r.token][UserIdKey := id][UserKey := stringify(UserOf(r, id))]
  }

  /**
   * After a login, `getUserIdFromToken` gives back the id the login
   * resolved, or nothing when it resolved the empty text: the token that
   * failed then is decoded the same way again.
   */
  lemma UserIdAfterLogin(storage: map<string, string>, r: AuthResponse, decode: string -> DecodeResult,
                         stringify: User -> string)
    ensures UserIdFromStorage(AfterLogin(storage, r, decode, stringify), decode) ==
      if ResolvedUserId(r, decode) != "" then Some(ResolvedUserId(r, decode)) else None
  {
    var s := AfterLogin(storage, r, decode, stringify);
    assert StoredText(s, UserIdKey) == Some(ResolvedUserId(r, decode));
    assert StoredText(s, TokenKey) == Some(r.token);
  }

  /** The keys `logout` removes. */
  const SessionKeys := {TokenKey, UserKey, UserIdKey}

  /** After `logout` there is no token and no user id to be found. */
  lemma LogoutForgets(storage: map<string, string>, decode: string -> DecodeResult)
    ensures !HasTokenIn(storage - SessionKeys)
    ensures UserIdFromStorage(storage - SessionKeys, decode).None?
  {
    assert TokenKey !in (storage - SessionKeys);
    assert UserIdKey !in (storage - SessionKeys);
  }

  /** `user?.role === role`: false without a user. */
  predicate HasRole(user: Option<User>, role: string)
  {
    user.Some? && user.value.role == role
  }

  /** `JSON.parse` of the stored user: it throws on malformed text, and `null` parses to no user. */
  datatype ParseResult = ParseError | Parsed(user: Option<User>)

  /**
   * `getUserFromStorage`, run by the field initialiser: no user when the
   * stored text is missing or empty; `None` when `JSON.parse` throws, which
   * makes the service fail to construct.
   */
  function StartupUser(storage: map<string, string>, parseUser: string -> ParseResult): (r: Option<Option<User>>)
    ensures !PresentText(StoredText(storage, UserKey)) ==> r == Some(None)
    ensures PresentText(StoredText(storage, UserKey)) ==>
      (r.None? <==> parseUser(storage[UserKey]).ParseError?)
    ensures r.Some? && r.value.Some? ==>
      PresentText(StoredText(storage, UserKey)) && parseUser(storage[UserKey]) == Parsed(r.value)
  {
    var text := StoredText(storage, UserKey);
    if !PresentText(text) then Some(None)
    else match parseUser(text.value)
      case ParseError => None
      case Parsed(u) => Some(u)
  }

  class AuthServiceState {
    var storage: map<string, string>
    var currentUser: Option<User>
    var isAuthenticated: bool

    /**
     * The service as it starts: the user read back from storage when its
     * text is truthy, authenticated when a token is stored. The service can
     * only be built when `JSON.parse` accepts the stored text
     * (`StartupUser` is not `None`).
     */
    constructor (initial: map<string, string>, parseUser: string -> ParseResult)
      requires StartupUser(initial, parseUser).Some?
      ensures storage == initial
      ensures currentUser == StartupUser(initial, parseUser).value
      ensures isAuthenticated == HasTokenIn(initial)
    {
      storage := initial;
      currentUser := StartupUser(initial, parseUser).value;
      isAuthenticated := HasTokenIn(initial);
    }

    /** `logout`: the three keys go, the user is cleared and the session is unauthenticated. */
    method Logout()
      modifies this
      ensures storage == old(storage) - SessionKeys
      ensures currentUser.None? && !isAuthenticated
    {
      storage := storage - SessionKeys;
      currentUser := None;
      isAuthenticated := false;
    }

    /** `getToken`: the stored token, null when none is stored. */
    function GetToken(): (t: Option<string>)
      reads this
      ensures t.Some? <==> TokenKey in storage
      ensures t.Some? ==> t.value == storage[TokenKey]
    {
      StoredText(storage, TokenKey)
    }

    /** `hasToken`: `!!this.getToken()`. */
    predicate HasToken()
      reads this
      ensures HasToken() <==> GetToken().Some? && GetToken().value != ""
    {
      HasTokenIn(storage)
    }

    /** `isTrainer`; it never holds together with `isClient`. */
    predicate IsTrainer()
      reads this
      ensures IsTrainer() ==> !IsClient()
    {
      HasRole(currentUser, TrainerRole)
    }

    /** `isClient`: a signed-in user whose role is `Client`. */
    predicate IsClient()
      reads this
      ensures IsClient() ==> currentUser.Some? && currentUser.value.role != TrainerRole
    {
      HasRole(currentUser, ClientRole)
    }

    /** `handleAuthResponse`: stores token, user id and user, and authenticates. */
    method HandleAuthResponse(r: AuthResponse, decode: string -> DecodeResult, stringify: User -> string)
      modifies this
      ensures storage == AfterLogin(old(storage), r, decode, stringify)
      ensures currentUser == Some(UserOf(r, ResolvedUserId(r, decode)))
      ensures isAuthenticated
    {
      var id := ResolvedUserId(r, decode);
      storage := storage[TokenKey := r.token];
      storage := storage[UserIdKey := id];
      var user := UserOf(r, id);
      storage := storage[UserKey := stringify(user)];
      currentUser := Some(user);
      isAuthenticated := true;
    }

    /**
     * `getUserIdFromToken`: the stored user id when it is non-empty; with no
     * token nothing; otherwise the first truthy id claim of the token, in the
     * order `userId`, `sub`, `nameidentifier`, and nothing when decoding throws.
     */
    function GetUserIdFromToken(decode: string -> DecodeResult): (r: Option<string>)
      reads this
      ensures r.Some? ==> r.value != ""
      ensures UserIdKey in storage && storage[UserIdKey] != "" ==> r == Some(storage[UserIdKey])
      ensures !(UserIdKey in storage && storage[UserIdKey] != "") && !HasToken() ==> r.None?
      ensures !(UserIdKey in storage && storage[UserIdKey] != "") && HasToken() ==>
        (decode(storage[TokenKey]).DecodeFailure? ==> r.None?) &&
        (decode(storage[TokenKey]).Payload? ==> r == FirstTruthy(decode(storage[TokenKey]).claims, UserIdClaims))
    {
      UserIdFromStorage(storage, decode)
    }
  }
}
