/**
 * The front end's authentication service: the access and refresh tokens it
 * keeps in the browser's key/value storage, the signed-in flag and user it
 * publishes, and the claims it reads from the access token's payload.
 *
 * Base64 decoding, percent-decoding and JSON parsing of the payload are
 * runtime calls; they are one function parameter, `decode`, which yields
 * `None` where they would throw.
 */
module Auth {
  import opened Wrappers
  import opened Js
  import opened JsStrings

  const TokenKey: string := "fs_access"
  const RefreshKey: string := "fs_refresh"

  /** The payload segment in the base64 alphabet: `-` becomes `+` and `_` becomes `/`. */
  function Base64Segment(s: string): (r: string)
    ensures |r| == |s|
    ensures forall k :: 0 <= k < |s| ==>
              r[k] == (if s[k] == '-' then '+' else if s[k] == '_' then '/' else s[k])
    ensures '-' !in r && '_' !in r
  {
    var plus := ReplaceAll(s, '-', '+');
    var r := ReplaceAll(plus, '_', '/');
    assert forall k :: 0 <= k < |r| ==> r[k] != '-' && r[k] != '_';
    r
  }

  /**
   * decodeJwtPayload: `null` for a missing or empty token and for a token
   * that is not three dot-separated segments; otherwise whatever the middle
   * segment decodes to, or `null` when decoding fails.
   */
  function DecodeJwtPayload(token: Option<string>, decode: string -> Option<Value>): (r: Value)
    ensures token == None || token == Some("") ==> r == Null
    ensures token.Some? && Count(token.value, '.') != 2 ==> r == Null
    ensures token.Some? && token.value != "" && Count(token.value, '.') == 2 ==>
              var mid := Split(token.value, '.')[1];
              r == match decode(Base64Segment(mid)) case None => Null case Some(v) => v
  {
    if token == None || token.value == "" then Null
    else
      var parts := Split(token.value, '.');
      if |parts| != 3 then Null
      else
        match decode(Base64Segment(parts[1]))
        case None => Null
        case Some(v) => v
  }

  /** Only a token with exactly two dots can carry a payload. */
  lemma DecodedTokenHasThreeSegments(token: string, decode: string -> Option<Value>)
    requires DecodeJwtPayload(Some(token), decode) != Null
    ensures token != "" && |Split(token, '.')| == 3
    ensures Join(Split(token, '.'), '.') == token
  {
  }

  /** The user published from a token. */
  datatype User = User(id: Value, username: Value)

  /**
   * The claim selection of loadUserFromToken: the username is
   * `username || user_name || sub || null`, the id `user_id ?? sub ?? null`,
   * and a user is published only when one of them is truthy.
   */
  function UserFromPayload(payload: Value): (r: Option<User>)
  {
    if !Truthy(payload) then None
    else
      var username := Or(Or(Or(Get(payload, "username"), Get(payload, "user_name")), Get(payload, "sub")), Null);
      var userId := Coalesce(Coalesce(Get(payload, "user_id"), Get(payload, "sub")), Null);
      if Truthy(username) || Truthy(userId) then Some(User(Coalesce(userId, Num(0.0)), Coalesce(username, Str(""))))
      else None
  }

  /** The username claim: the first truthy of `username`, `user_name`, `sub`. */
  function UsernameClaim(payload: Value): Value
  {
    FirstTruthy([Get(payload, "username"), Get(payload, "user_name"), Get(payload, "sub")])
  }

  /** The id claim: the first present of `user_id`, `sub`. */
  function IdClaim(payload: Value): Value
  {
    FirstPresent([Get(payload, "user_id"), Get(payload, "sub")])
  }

  /**
   * A user is published exactly when the payload is truthy and one of the
   * two claims is; its username is the username claim (or `''` when there is
   * none) and its id the id claim (or 0 when there is none).
   */
  lemma {:induction false} UserClaims(payload: Value)
    ensures UserFromPayload(payload).Some? <==>
              Truthy(payload) && (Truthy(UsernameClaim(payload)) || Truthy(IdClaim(payload)))
    ensures UserFromPayload(payload).Some? ==>
              && UserFromPayload(payload).value.username == (if UsernameClaim(payload) == Null then Str("") else UsernameClaim(payload))
              && UserFromPayload(payload).value.id == (if IdClaim(payload) == Null then Num(0.0) else IdClaim(payload))
  {
    OrChainIsFirstTruthy(Get(payload, "username"), Get(payload, "user_name"), Get(payload, "sub"));
    CoalesceChainIsFirstPresent(Get(payload, "user_id"), Get(payload, "sub"));
    FirstTruthyIsFirst([Get(payload, "username"), Get(payload, "user_name"), Get(payload, "sub")]);
    FirstPresentIsPresent(Get(payload, "user_id"), Get(payload, "sub"));
  }

  /** The first present of two values is `null` only when both are nullish, and otherwise not nullish. */
  lemma FirstPresentIsPresent(a: Value, b: Value)
    ensures FirstPresent([a, b]) == Null || !Nullish(FirstPresent([a, b]))
    ensures Nullish(FirstPresent([a, b])) <==> Nullish(a) && Nullish(b)
  {
    assert [a, b][1..] == [b];
    assert [b][1..] == [];
  }

  /** An empty-string username is skipped in favour of the next claim. */
  lemma EmptyUsernameSkipped(fields: map<string, Value>)
    requires "username" in fields && fields["username"] == Str("")
    requires "user_name" in fields && Truthy(fields["user_name"])
    ensures UserFromPayload(Obj(fields)).Some?
    ensures UserFromPayload(Obj(fields)).value.username == fields["user_name"]
  {
    UserClaims(Obj(fields));
    assert [Get(Obj(fields), "user_name"), Get(Obj(fields), "sub")][0] == fields["user_name"];
  }

  /** A `sub` claim alone gives both the username and the id. */
  lemma SubjectOnly(s: string)
    requires s != ""
    ensures UserFromPayload(Obj(map["sub" := Str(s)])) == Some(User(Str(s), Str(s)))
  {
    var p := Obj(map["sub" := Str(s)]);
    assert Get(p, "username") == Undefined && Get(p, "user_name") == Undefined && Get(p, "user_id") == Undefined;
  }

  /** A storage read: the value stored under `key`, `null` without a browser or without the key. */
  function StoredValue(hasWindow: bool, storage: map<string, string>, key: string): Option<string>
  {
    if hasWindow && key in storage then Some(storage[key]) else None
  }

  /**
   * Read after write: in a browser a value reads back under its key, and a
   * write changes no other key's read; storing the access token in
   * particular leaves the refresh token as it was.
   */
  lemma ReadAfterWrite(hasWindow: bool, storage: map<string, string>, key: string, t: string)
    ensures StoredValue(hasWindow, storage[key := t], key) == if hasWindow then Some(t) else None
    ensures forall other :: other != key ==>
              StoredValue(hasWindow, storage[key := t], other) == StoredValue(hasWindow, storage, other)
    ensures StoredValue(hasWindow, storage[TokenKey := t], RefreshKey) == StoredValue(hasWindow, storage, RefreshKey)
  {
  }

  /** Read after remove: a removed key reads as `null`, and a removal changes no other key's read. */
  lemma ReadAfterRemove(hasWindow: bool, storage: map<string, string>, key: string)
    ensures StoredValue(hasWindow, storage - {key}, key) == None
    ensures forall other :: other != key ==>
              StoredValue(hasWindow, storage - {key}, other) == StoredValue(hasWindow, storage, other)
  {
  }

  /** The reply to a refresh request: failure, or the reply's `access` token (`None` when it has none). */
  datatype RefreshReply = RequestFailed | Replied(access: Option<string>)

  class AuthService {
    /** Whether the page runs in a browser; without one, storage is never reached. */
    const hasWindow: bool
    /** Base64, percent-decoding and JSON parsing of a payload segment. */
    const decode: string -> Option<Value>
    /** The browser's key/value storage. */
    var storage: map<string, string>
    /** The value last published on the signed-in stream. */
    var authenticated: bool
    /** The value last published on the user stream. */
    var user: Option<User>

    /** Construction publishes whether an access token is stored and the user it names. */
    constructor (hasWindow: bool, storage: map<string, string>, decode: string -> Option<Value>)
      ensures this.hasWindow == hasWindow && this.storage == storage && this.decode == decode
      ensures authenticated == HasAccessToken()
      ensures user == UserFromPayload(DecodeJwtPayload(GetAccessToken(), decode))
    {
      this.hasWindow := hasWindow;
      this.storage := storage;
      this.decode := decode;
      user := None;
      new;
      authenticated := HasAccessToken();
      LoadUserFromToken();
    }

    /** getAccessToken: the stored access token, `null` without a browser or without a stored token. */
    function GetAccessToken(): (r: Option<string>)
      reads this`storage
      ensures r.Some? <==> hasWindow && TokenKey in storage
      ensures r.Some? ==> r.value == storage[TokenKey]
    {
      StoredValue(hasWindow, storage, TokenKey)
    }

    /** getRefreshToken: the stored refresh token, `null` without a browser or without a stored token. */
    function GetRefreshToken(): (r: Option<string>)
      reads this`storage
      ensures r.Some? <==> hasWindow && RefreshKey in storage
      ensures r.Some? ==> r.value == storage[RefreshKey]
    {
      StoredValue(hasWindow, storage, RefreshKey)
    }

    /** getToken. */
    function GetToken(): Option<string>
      reads this`storage
    {
      GetAccessToken()
    }

    /** hasAccessToken: a non-empty access token is stored. */
    function HasAccessToken(): (r: bool)
      reads this`storage
      ensures r <==> GetToken().Some? && GetToken().value != ""
    {
      hasWindow && TokenKey in storage && storage[TokenKey] != ""
    }

    /** loadUserFromToken: publishes the user the stored access token names, or `null`. */
    method LoadUserFromToken()
      modifies this`user
      ensures user == UserFromPayload(DecodeJwtPayload(GetAccessToken(), decode))
    {
      var token := GetAccessToken();
      var payload := DecodeJwtPayload(token, decode);
      if Truthy(payload) {
        var username := Or(Or(Or(Get(payload, "username"), Get(payload, "user_name")), Get(payload, "sub")), Null);
        var userId := Coalesce(Coalesce(Get(payload, "user_id"), Get(payload, "sub")), Null);
        if Truthy(username) || Truthy(userId) {
          user := Some(User(Coalesce(userId, Num(0.0)), Coalesce(username, Str(""))));
          return;
        }
      }
      user := None;
    }

    /** logout: both tokens are removed, every other key is kept, and the signed-out state is published. */
    method Logout()
      modifies this`storage, this`authenticated, this`user
      ensures storage == if hasWindow then old(storage) - {TokenKey, RefreshKey} else old(storage)
      ensures !authenticated && user == None
      ensures GetAccessToken() == None && GetRefreshToken() == None && !HasAccessToken()
      ensures forall k :: k in old(storage) && k != TokenKey && k != RefreshKey ==>
                k in storage && storage[k] == old(storage)[k]
    {
      if hasWindow {
        storage := storage - {TokenKey};
        storage := storage - {RefreshKey};
      }
      authenticated := false;
      user := None;
    }

    /**
     * refreshAccessToken, with the reply to the refresh request as a
     * parameter.  Without a stored refresh token no request is made and the
     * service signs out; a failed request signs out too; a non-empty
     * `access` token in the reply is stored and becomes the signed-in one.
     */
    method RefreshAccessToken(reply: RefreshReply) returns (requested: bool, r: Option<string>)
      modifies this`storage, this`authenticated, this`user
      ensures !requested <==> old(GetRefreshToken()) == None || old(GetRefreshToken()) == Some("")
      ensures !requested ==> r == None && !authenticated && user == None && !HasAccessToken()
      ensures requested && reply.RequestFailed? ==> r == None && !authenticated && user == None
      ensures !requested || reply.RequestFailed? ==>
                && storage == (if hasWindow then old(storage) - {TokenKey, RefreshKey} else old(storage))
                && GetAccessToken() == None && GetRefreshToken() == None
      ensures requested && reply.Replied? && (reply.access == None || reply.access == Some("")) ==>
                r == None && storage == old(storage) && authenticated == old(authenticated) && user == old(user)
      ensures requested && reply.Replied? && reply.access.Some? && reply.access.value != "" ==>
                && r == reply.access && storage == old(storage)[TokenKey := reply.access.value]
                && authenticated && HasAccessToken() && GetToken() == r
                && user == UserFromPayload(DecodeJwtPayload(r, decode))
    {
      var refresh := GetRefreshToken();
      if refresh == None || refresh.value == "" {
        Logout();
        return false, None;
      }
      requested := true;
      match reply
      case RequestFailed =>
        Logout();
        r := None;
      case Replied(access) =>
        if access == None || access.value == "" {
          r := None;
        } else {
          storage := storage[TokenKey := access.value];
          authenticated := true;
          LoadUserFromToken();
          r := access;
        }
    }
  }
}
