/** The token store and request plumbing of src/api/apiClient.ts: the two
    `localStorage` keys, the `Authorization` header, the header merge and
    the reply handling of `authFetch`, and the order in which `auth.login`
    stores the token and asks for the current user. The HTTP requests are
    outside the model; their replies are parameters. */
module ApiClient {
  import opened Strings
  import opened BrowserStorage

  const AccessTokenKey := "auth_token"
  const TokenTypeKey := "token_type"
  const DefaultTokenType := "bearer"
  const Authorization := "Authorization"
  const ContentType := "Content-Type"
  const JsonContentType := "application/json"
  const LoginFailed := "Login failed"

  // ---------------------------------------------------------------------
  // What the getters read

  /** `getToken()` on the given items. */
  function StoredToken(items: map<string, string>): (token: Option<string>)
    ensures token.Some? <==> AccessTokenKey in items
    ensures token.Some? ==> token.value == items[AccessTokenKey]
  {
    if AccessTokenKey in items then Some(items[AccessTokenKey]) else None
  }

  /** `getTokenType()` on the given items: `"bearer"` unless a non-empty
      type is stored. */
  function StoredTokenType(items: map<string, string>): (tokenType: string)
    ensures tokenType != ""
    ensures TokenTypeKey in items && items[TokenTypeKey] != "" ==> tokenType == items[TokenTypeKey]
    ensures TokenTypeKey !in items || items[TokenTypeKey] == "" ==> tokenType == DefaultTokenType
  {
    if TokenTypeKey in items then OrDefault(items[TokenTypeKey], DefaultTokenType) else DefaultTokenType
  }

  /** The headers `getAuthHeader` builds from a token and its type: none
      without a (non-empty) token. */
  function AuthHeader(token: Option<string>, tokenType: string): (headers: map<string, string>)
    ensures headers == map[] <==> token == None || token == Some("")
    ensures headers != map[] ==> headers.Keys == {Authorization}
    ensures headers != map[] ==> headers[Authorization] == tokenType + " " + token.value
  {
    if token == None || token == Some("") then map[]
    else
      var headers := map[Authorization := tokenType + " " + token.value];
      assert Authorization in headers;
      headers
  }

  /** `getAuthHeader()` on the given items. */
  function StoredAuthHeader(items: map<string, string>): map<string, string>
  {
    AuthHeader(StoredToken(items), StoredTokenType(items))
  }

  /** The items after `setAuthTokens(accessToken, tokenType)`; a missing
      type is `"bearer"`. */
  function WithTokens(items: map<string, string>, accessToken: string, tokenType: Option<string>): map<string, string>
  {
    var stored := match tokenType case None => DefaultTokenType case Some(t) => t;
    items[AccessTokenKey := accessToken][TokenTypeKey := stored]
  }

  /** The items after `clearAuthTokens()`. */
  function WithoutTokens(items: map<string, string>): map<string, string>
  {
    items - {AccessTokenKey, TokenTypeKey}
  }

  /** Storing then reading gives back the token, and the type (which reads
      as `"bearer"` when it was omitted or empty); the header then carries
      both. No other entry changes. */
  lemma SetThenGet(items: map<string, string>, accessToken: string, tokenType: Option<string>)
    ensures var after := WithTokens(items, accessToken, tokenType);
            && StoredToken(after) == Some(accessToken)
            && StoredTokenType(after) == OptionOrDefault(tokenType, DefaultTokenType)
            && (accessToken != "" ==>
                  StoredAuthHeader(after)
                  == map[Authorization := OptionOrDefault(tokenType, DefaultTokenType) + " " + accessToken])
            && (forall k :: k != AccessTokenKey && k != TokenTypeKey ==>
                  (k in after <==> k in items) && (k in items ==> after[k] == items[k]))
  {
  }

  /** After clearing, both keys are gone, no header is sent and the type
      reads as `"bearer"` again. No other entry changes. */
  lemma ClearThenGet(items: map<string, string>)
    ensures var after := WithoutTokens(items);
            && AccessTokenKey !in after && TokenTypeKey !in after
            && StoredToken(after) == None
            && StoredAuthHeader(after) == map[]
            && StoredTokenType(after) == DefaultTokenType
            && (forall k :: k != AccessTokenKey && k != TokenTypeKey ==>
                  (k in after <==> k in items) && (k in items ==> after[k] == items[k]))
  {
  }

  // ---------------------------------------------------------------------
  // The operations on the shared storage

  method GetToken(storage: LocalStorage) returns (token: Option<string>)
    ensures token.Some? <==> AccessTokenKey in storage.items
    ensures token.Some? ==> token.value == storage.items[AccessTokenKey]
  {
    token := storage.GetItem(AccessTokenKey);
  }

  method GetTokenType(storage: LocalStorage) returns (tokenType: string)
    ensures tokenType == StoredTokenType(storage.items)
    ensures TokenTypeKey !in storage.items ==> tokenType == DefaultTokenType
  {
    var stored := storage.GetItem(TokenTypeKey);
    tokenType := OptionOrDefault(stored, DefaultTokenType);
  }

  method SetAuthTokens(storage: LocalStorage, accessToken: string, tokenType: Option<string>)
    modifies storage
    ensures storage.items == WithTokens(old(storage.items), accessToken, tokenType)
  {
    storage.SetItem(AccessTokenKey, accessToken);
    var stored := match tokenType case None => DefaultTokenType case Some(t) => t;
    storage.SetItem(TokenTypeKey, stored);
  }

  method ClearAuthTokens(storage: LocalStorage)
    modifies storage
    ensures storage.items == WithoutTokens(old(storage.items))
  {
    storage.RemoveItem(AccessTokenKey);
    storage.RemoveItem(TokenTypeKey);
  }

  method GetAuthHeader(storage: LocalStorage) returns (headers: map<string, string>)
    ensures headers == StoredAuthHeader(storage.items)
    ensures AccessTokenKey !in storage.items ==> headers == map[]
  {
    var token := GetToken(storage);
    var tokenType := GetTokenType(storage);
    if token == None || token == Some("") {
      return map[];
    }
    headers := map[Authorization := tokenType + " " + token.value];
  }

  // ---------------------------------------------------------------------
  // authFetch

  /** The headers `authFetch` sends: the JSON content type, then the auth
      header, then the caller's headers, each later one overriding. */
  function MergeHeaders(auth: map<string, string>, caller: map<string, string>): (headers: map<string, string>)
    ensures headers.Keys == {ContentType} + auth.Keys + caller.Keys
    ensures forall k :: k in caller ==> headers[k] == caller[k]
    ensures forall k :: k in auth && k !in caller ==> headers[k] == auth[k]
    ensures ContentType !in auth && ContentType !in caller ==> headers[ContentType] == JsonContentType
  {
    map[ContentType := JsonContentType] + auth + caller
  }

  /** What `authFetch` returns: nothing for 204, the parsed body otherwise. */
  datatype Reply<T> = NoContent | Json(value: T)

  predicate IsOk(status: nat) { 200 <= status <= 299 }

  /** The message of the error `authFetch` throws for a reply that is not ok:
      the body's `detail` when it is a non-empty string, else the status. */
  function ApiErrorMessage(status: nat, detail: Option<string>): (message: string)
    ensures detail.Some? && detail.value != "" ==> message == detail.value
    ensures detail == None || detail == Some("") ==> message == "API Error: " + Digits(status)
  {
    OptionOrDefault(detail, "API Error: " + Digits(status))
  }

  /** The settled result of `authFetch` once the reply is in: `detail` is
      the error body's `detail` (when the body parses and has one), `body`
      the outcome of parsing a success body. */
  function AuthFetchResult<T>(status: nat, detail: Option<string>, body: Settled<T>): (r: Settled<Reply<T>>)
    ensures !IsOk(status) ==> r == Rejected(ApiErrorMessage(status, detail))
    ensures status == 204 ==> r == Resolved(NoContent)
    ensures IsOk(status) && status != 204 ==>
              && (r.Resolved? <==> body.Resolved?)
              && (body.Resolved? ==> r.value == Json(body.value))
              && (body.Rejected? ==> r == Rejected(body.message))
  {
    if !IsOk(status) then Rejected(ApiErrorMessage(status, detail))
    else if status == 204 then Resolved(NoContent)
    else match body
         case Resolved(v) => Resolved(Json(v))
         case Rejected(m) => Rejected(m)
  }

  // ---------------------------------------------------------------------
  // auth.login

  /** The token endpoint's answer: refused (with the error body's `detail`,
      if any), or a token and its type. */
  datatype TokenReply = Refused(detail: Option<string>) | Granted(accessToken: string, tokenType: Option<string>)

  /** `auth.login` up to the request for the current user. A refusal throws
      and stores nothing; a grant stores the token first, so that the
      `/users/me` request that follows carries it. */
  method Login(storage: LocalStorage, reply: TokenReply) returns (failure: Option<string>, userRequestHeaders: Option<map<string, string>>)
    modifies storage
    ensures reply.Refused? ==>
              && failure == Some(OptionOrDefault(reply.detail, LoginFailed))
              && userRequestHeaders == None
              && storage.items == old(storage.items)
    ensures reply.Granted? ==>
              && failure == None
              && storage.items == WithTokens(old(storage.items), reply.accessToken, reply.tokenType)
              && userRequestHeaders == Some(MergeHeaders(StoredAuthHeader(storage.items), map[]))
  {
    match reply
    case Refused(detail) =>
      failure, userRequestHeaders := Some(OptionOrDefault(detail, LoginFailed)), None;
    case Granted(accessToken, tokenType) =>
      SetAuthTokens(storage, accessToken, tokenType);
      var auth := GetAuthHeader(storage);
      failure, userRequestHeaders := None, Some(MergeHeaders(auth, map[]));
  }

  /** After a grant with a non-empty token, the user request is authorised
      with exactly the token just received. */
  lemma LoginAuthorisesUserRequest(items: map<string, string>, accessToken: string, tokenType: Option<string>)
    requires accessToken != ""
    ensures var headers := MergeHeaders(StoredAuthHeader(WithTokens(items, accessToken, tokenType)), map[]);
            && Authorization in headers
            && headers[Authorization] == OptionOrDefault(tokenType, DefaultTokenType) + " " + accessToken
            && headers[ContentType] == JsonContentType
  {
    SetThenGet(items, accessToken, tokenType);
  }

  /** `auth.logout`. */
  method Logout(storage: LocalStorage)
    modifies storage
    ensures storage.items == WithoutTokens(old(storage.items))
  {
    ClearAuthTokens(storage);
  }
}
