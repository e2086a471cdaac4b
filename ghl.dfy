/**
 * services/ghl.js: the CRM client. It keeps a module-level token cache,
 * loaded from the token store when the module loads, and decides on
 * refreshes from that cache, not from the file. A manual override token in
 * the environment bypasses the whole token lifecycle. Every API call carries
 * the Bearer token and the fixed API version header.
 *
 * Each operation is given twice: as a function from its inputs (the cache,
 * the clock, the remote answers) to a Step, which states what the call does,
 * and as a method of Client, which performs it on the cache, the request log
 * and the token file.
 */
module Ghl {
  import opened Js
  import opened Http
  import opened TokenStore
  import opened OAuth

  const TokenUrl := "https://services.leadconnectorhq.com/oauth/token"
  const ApiBase := "https://services.leadconnectorhq.com"
  const ApiVersion := "2021-07-28"
  const ConversationProviderId := "6925fd0c527ff0b8f1e92b60"
  /** The environment variable holding the manual override token. */
  const OverrideVar := "GHL_ACCESS_TOKEN"

  /** What one call does: its result, the token cache after it, the requests
      it sent in order and the token-store operations it performed in order. */
  datatype Step<T> = Step(result: Result<T>, cache: Record, requests: seq<Request>, ops: seq<Op>)

  /** The override token when one is configured (a set, non-empty variable). */
  function Override(env: Env): (v: Json)
    ensures Truthy(v) <==> OverrideVar in env && env[OverrideVar] != ""
    ensures Truthy(v) ==> v == Str(env[OverrideVar])
  {
    EnvValue(env, OverrideVar)
  }

  /** The token-endpoint form of a code exchange (services/ghl.js:17-22). */
  function ExchangeForm(env: Env, code: Json): (form: seq<(string, string)>)
    ensures FormNames(form) == ["client_id", "client_secret", "grant_type", "code", "redirect_uri"]
    ensures FormValue(form, "grant_type") == Some("authorization_code")
    ensures FormValue(form, "code") == Some(ToStr(code))
    ensures FormValue(form, "client_id") == Some(ToStr(EnvValue(env, "GHL_CLIENT_ID")))
    ensures FormValue(form, "client_secret") == Some(ToStr(EnvValue(env, "GHL_CLIENT_SECRET")))
    ensures FormValue(form, "redirect_uri") == Some(ToStr(EnvValue(env, "GHL_REDIRECT_URI")))
  {
    var form :=
      [FormField("client_id", EnvValue(env, "GHL_CLIENT_ID")),
       FormField("client_secret", EnvValue(env, "GHL_CLIENT_SECRET")),
       FormField("grant_type", Str("authorization_code")),
       FormField("code", code),
       FormField("redirect_uri", EnvValue(env, "GHL_REDIRECT_URI"))];
    FormValueOfDistinct(form);
    assert FormValue(form, form[0].0) == Some(form[0].1);
    assert FormValue(form, form[1].0) == Some(form[1].1);
    assert FormValue(form, form[2].0) == Some(form[2].1);
    assert FormValue(form, form[3].0) == Some(form[3].1);
    assert FormValue(form, form[4].0) == Some(form[4].1);
    form
  }

  /** The token-endpoint form of a refresh (services/ghl.js:55-59). */
  function RefreshForm(env: Env, refreshToken: Json): (form: seq<(string, string)>)
    ensures FormNames(form) == ["client_id", "client_secret", "grant_type", "refresh_token"]
    ensures FormValue(form, "grant_type") == Some("refresh_token")
    ensures FormValue(form, "refresh_token") == Some(ToStr(refreshToken))
    ensures FormValue(form, "client_id") == Some(ToStr(EnvValue(env, "GHL_CLIENT_ID")))
    ensures FormValue(form, "client_secret") == Some(ToStr(EnvValue(env, "GHL_CLIENT_SECRET")))
  {
    var form :=
      [FormField("client_id", EnvValue(env, "GHL_CLIENT_ID")),
       FormField("client_secret", EnvValue(env, "GHL_CLIENT_SECRET")),
       FormField("grant_type", Str("refresh_token")),
       FormField("refresh_token", refreshToken)];
    FormValueOfDistinct(form);
    assert FormValue(form, form[0].0) == Some(form[0].1);
    assert FormValue(form, form[1].0) == Some(form[1].1);
    assert FormValue(form, form[2].0) == Some(form[2].1);
    assert FormValue(form, form[3].0) == Some(form[3].1);
    form
  }

  /** exchangeCodeForToken (services/ghl.js:16-43). */
  function Exchange(env: Env, cache: Record, code: Json, now: int, answer: Result<TokenGrant>): (s: Step<Record>)
    ensures s.requests == [FormPost(TokenUrl, ExchangeForm(env, code))]
    ensures answer.Err? ==> s.result == Err(answer.error) && s.cache == cache && s.ops == []
    ensures answer.Ok? ==> s.result == Ok(s.cache) && s.cache == GrantedRecord(answer.value, now)
    // the record is saved, then the location id, only when the answer carries a truthy one
    ensures answer.Ok? ==>
      s.ops == (if Truthy(answer.value.locationId) then [SaveTokensOp(s.cache), SaveLocationIdOp(answer.value.locationId)]
                else [SaveTokensOp(s.cache)])
  {
    var request := FormPost(TokenUrl, ExchangeForm(env, code));
    match answer
    case Err(e) => Step(Err(e), cache, [request], [])
    case Ok(g) =>
      var record := GrantedRecord(g, now);
      var ops := if Truthy(g.locationId) then [SaveTokensOp(record), SaveLocationIdOp(g.locationId)] else [SaveTokensOp(record)];
      Step(Ok(record), record, [request], ops)
  }

  /** After a successful exchange on a writable store, the ghl record holds
      the granted fields as JSON keeps them, the location id is the answer's
      when that is truthy and unchanged otherwise, and the podium record is
      untouched. */
  lemma {:induction false} ExchangeStores(env: Env, cache: Record, code: Json, now: int, g: TokenGrant, f: FileState)
    requires IsJsonFile(f)
    ensures var s := Exchange(env, cache, code, now, Ok(g));
            var f' := Perform(f, true, s.ops);
      && (forall k :: k in LoadTokens(f') <==> (k in s.cache && !s.cache[k].Undefined?) || (k !in s.cache && k in LoadTokens(f)))
      && (forall k :: k in s.cache ==> Field(LoadTokens(f'), k) == Jsonify(s.cache[k]))
      && (forall k :: k !in s.cache && k in LoadTokens(f) ==> Field(LoadTokens(f'), k) == LoadTokens(f)[k])
      && GetLocationId(f') == (if Truthy(g.locationId) then Jsonify(g.locationId) else GetLocationId(f))
      && Read(f').locationId == (if Truthy(g.locationId) then Jsonify(g.locationId) else Read(f).locationId)
      && Read(f').podium == Read(f).podium
      && LoadPodiumTokens(f') == LoadPodiumTokens(f)
  {
    var record := GrantedRecord(g, now);
    var f1 := AfterSaveTokens(f, true, record);
    LoadAfterSaveTokens(f, record);
    SaveTokensFrame(f, true, record);
    JsonDocumentIsJson(Read(f).(ghl := Some(Merge(Read(f).ghl, record))));
    var f' := f1;
    if Truthy(g.locationId) {
      PerformSaveTokensAndLocationId(f, true, record, g.locationId);
      LocationIdAfterSave(f1, g.locationId);
      f' := AfterSaveLocationId(f1, true, g.locationId);
    } else {
      PerformSaveTokens(f, true, record);
    }
    assert LoadTokens(f') == LoadTokens(f1) && Read(f').podium == Read(f1).podium;
    forall k | k in record
      ensures Field(LoadTokens(f'), k) == Jsonify(record[k])
    {
    }
  }

  /** refreshTokenIfNeeded (services/ghl.js:48-75): decides from the cache alone. */
  function Refresh(env: Env, cache: Record, now: int, answer: Result<TokenGrant>): (s: Step<Json>)
    // the override token is returned verbatim, and nothing else happens
    ensures Truthy(Override(env)) ==> s == Step(Ok(Override(env)), cache, [], [])
    // a valid cached token is returned, and nothing else happens
    ensures !Truthy(Override(env)) && !NeedsRefresh(cache, now) ==> s == Step(Ok(Field(cache, "access_token")), cache, [], [])
    // a due refresh without a refresh token fails, and nothing else happens
    ensures !Truthy(Override(env)) && NeedsRefresh(cache, now) && !Truthy(Field(cache, "refresh_token"))
      ==> s == Step(Err(NoRefreshToken), cache, [], [])
    // a token request is sent exactly when a refresh is due and possible
    ensures s.requests != [] <==> !Truthy(Override(env)) && NeedsRefresh(cache, now) && Truthy(Field(cache, "refresh_token"))
    ensures s.requests != [] ==> s.requests == [FormPost(TokenUrl, RefreshForm(env, Field(cache, "refresh_token")))]
    // the cache changes and is saved only after a successful refresh, to the refreshed record
    ensures s.ops != [] <==> s.requests != [] && answer.Ok?
    ensures s.ops == [] ==> s.cache == cache
    ensures s.ops != [] ==> s.cache == RefreshedRecord(cache, answer.value, now) && s.ops == [SaveTokensOp(s.cache)]
                            && s.result == Ok(answer.value.accessToken)
    ensures s.requests != [] && answer.Err? ==> s.result == Err(answer.error)
  {
    if Truthy(Override(env)) then Step(Ok(Override(env)), cache, [], [])
    else if !NeedsRefresh(cache, now) then Step(Ok(Field(cache, "access_token")), cache, [], [])
    else if !Truthy(Field(cache, "refresh_token")) then Step(Err(NoRefreshToken), cache, [], [])
    else
      var request := FormPost(TokenUrl, RefreshForm(env, Field(cache, "refresh_token")));
      match answer
      case Err(e) => Step(Err(e), cache, [request], [])
      case Ok(g) =>
        var record := RefreshedRecord(cache, g, now);
        Step(Ok(g.accessToken), record, [request], [SaveTokensOp(record)])
  }

  /** A refreshed token is reused, with no further token request, until it expires. */
  lemma {:induction false} RefreshedTokenIsReused(env: Env, cache: Record, now: int, g: TokenGrant, later: int, answer: Result<TokenGrant>)
    requires Refresh(env, cache, now, Ok(g)).ops != []
    requires Truthy(g.accessToken) && later < ExpiresAt(g, now)
    ensures var s := Refresh(env, cache, now, Ok(g));
      Refresh(env, s.cache, later, answer) == Step(s.result, s.cache, [], [])
  {
    var s := Refresh(env, cache, now, Ok(g));
    assert !NeedsRefresh(s.cache, later);
  }

  /** A refresh never loses the refresh token: it stays truthy in the cache. */
  lemma {:induction false} RefreshKeepsRefreshToken(env: Env, cache: Record, now: int, answer: Result<TokenGrant>)
    requires Refresh(env, cache, now, answer).requests != []
    ensures Truthy(Field(Refresh(env, cache, now, answer).cache, "refresh_token"))
  {
    var s := Refresh(env, cache, now, answer);
    if s.ops != [] {
      assert Truthy(Field(cache, "refresh_token"));
    }
  }

  /** The headers of every API call (services/ghl.js:83). */
  function ApiHeaders(token: Json): (h: map<string, string>)
    ensures "Authorization" in h && BearerToken(h["Authorization"]) == Some(ToStr(token))
    ensures "Content-Type" in h && h["Content-Type"] == "application/json"
    ensures "Version" in h && h["Version"] == ApiVersion
    ensures h.Keys == {"Authorization", "Content-Type", "Version"}
  {
    map["Authorization" := Bearer(token), "Content-Type" := "application/json", "Version" := ApiVersion]
  }

  /** `callGHLApi(endpoint, verb, body)` (services/ghl.js:80-117). */
  function CallApi(env: Env, cache: Record, now: int, endpoint: string, verb: string, body: Json, answers: Answers): (s: Step<Json>)
    // the token step's effects on cache and store are the call's effects
    ensures var t := Refresh(env, cache, now, answers.token);
      && s.cache == t.cache && s.ops == t.ops
      // without a token the call fails with the token error and sends no API request
      && (t.result.Err? ==> s.result == t.result && s.requests == t.requests)
      // with one, exactly one API request follows the token requests and its answer is the result
      && (t.result.Ok? ==>
            (&& s.result == answers.api
             && s.requests == t.requests + [JsonCall(ApiBase + endpoint, verb, ApiHeaders(t.result.value), body)]))
  {
    var t := Refresh(env, cache, now, answers.token);
    match t.result
    case Err(e) => Step(Err(e), t.cache, t.requests, t.ops)
    case Ok(token) =>
      Step(answers.api, t.cache, t.requests + [JsonCall(ApiBase + endpoint, verb, ApiHeaders(token), body)], t.ops)
  }

  /** With the override configured, every API call sends exactly one request,
      carrying the override verbatim, whatever the cache holds or the clock says. */
  lemma {:induction false} OverrideUsedVerbatim(env: Env, cache: Record, now: int, endpoint: string, verb: string, body: Json, answers: Answers)
    requires Truthy(Override(env))
    ensures var s := CallApi(env, cache, now, endpoint, verb, body, answers);
      && s.requests == [JsonCall(ApiBase + endpoint, verb, ApiHeaders(Override(env)), body)]
      && BearerToken(s.requests[0].headers["Authorization"]) == Some(env[OverrideVar])
      && s.cache == cache && s.ops == [] && s.result == answers.api
  {
    var s := CallApi(env, cache, now, endpoint, verb, body, answers);
    assert [] + [JsonCall(ApiBase + endpoint, verb, ApiHeaders(Override(env)), body)] == s.requests;
  }

  /** The contact-upsert body (services/ghl.js:126-130). */
  function UpsertBody(locationId: Json, phone: Json, name: Json): (b: Json)
    ensures b.Obj? && b.fields.Keys == {"locationId", "phone", "name"}
    ensures Get(b, "locationId") == locationId && Get(b, "phone") == phone
    ensures Get(b, "name") == (if Truthy(name) then name else Str(""))
  {
    Obj(map["locationId" := locationId, "phone" := phone, "name" := Or(name, Str(""))])
  }

  /** `upsertContact(phone, name)` (services/ghl.js:122-132), given the stored location id. */
  function Upsert(env: Env, cache: Record, locationId: Json, phone: Json, name: Json, now: int, answers: Answers): (s: Step<Json>)
    // without a location id it fails before any request
    ensures !Truthy(locationId) ==> s == Step(Err(MissingLocationId), cache, [], [])
    // otherwise it is the POST of the upsert body to /contacts/upsert
    ensures Truthy(locationId) ==> s == CallApi(env, cache, now, "/contacts/upsert", "POST", UpsertBody(locationId, phone, name), answers)
  {
    if !Truthy(locationId) then Step(Err(MissingLocationId), cache, [], [])
    else CallApi(env, cache, now, "/contacts/upsert", "POST", UpsertBody(locationId, phone, name), answers)
  }

  /** The inbound-message body (services/ghl.js:152-159); date is the ISO time text. */
  function InboundMessageBody(contactId: Json, message: Json, date: string): (b: Json)
    ensures b.Obj? && b.fields.Keys == {"type", "conversationProviderId", "contactId", "message", "direction", "date"}
    ensures Get(b, "contactId") == contactId && Get(b, "message") == message && Get(b, "date") == Str(date)
    ensures Get(b, "type") == Str("SMS") && Get(b, "direction") == Str("inbound")
    ensures Get(b, "conversationProviderId") == Str(ConversationProviderId)
  {
    Obj(map["type" := Str("SMS"),
            "conversationProviderId" := Str(ConversationProviderId),
            "contactId" := contactId,
            "message" := message,
            "direction" := Str("inbound"),
            "date" := Str(date)])
  }

  /** `sendMessageToGHL(contactId, message)` (services/ghl.js:149-161). */
  function SendMessage(env: Env, cache: Record, contactId: Json, message: Json, date: string, now: int, answers: Answers): (s: Step<Json>)
    ensures var t := Refresh(env, cache, now, answers.token);
      && s.cache == t.cache && s.ops == t.ops
      && (t.result.Err? ==> s.result == t.result && s.requests == t.requests)
      // the message is posted once, as an inbound SMS of the fixed conversation provider
      && (t.result.Ok? ==>
            (&& s.result == answers.api
             && s.requests == t.requests + [JsonCall(ApiBase + "/conversations/messages/inbound", "POST",
                                                     ApiHeaders(t.result.value), InboundMessageBody(contactId, message, date))]))
  {
    CallApi(env, cache, now, "/conversations/messages/inbound", "POST", InboundMessageBody(contactId, message, date), answers)
  }

  /** `/contacts/${contactId}` */
  function ContactEndpoint(contactId: Json): (e: string)
    ensures |e| >= 10 && e[..10] == "/contacts/" && e[10..] == ToStr(contactId)
  {
    "/contacts/" + ToStr(contactId)
  }

  /** `getContactDetails(contactId)` (services/ghl.js:163-166): a GET with the default empty body. */
  function ContactDetails(env: Env, cache: Record, contactId: Json, now: int, answers: Answers): (s: Step<Json>)
    ensures var t := Refresh(env, cache, now, answers.token);
      && s.cache == t.cache && s.ops == t.ops
      && (t.result.Err? ==> s.result == t.result && s.requests == t.requests)
      // one GET of the contact's own URL, whose answer is the result
      && (t.result.Ok? ==>
            (&& s.result == answers.api
             && s.requests == t.requests + [JsonCall(ApiBase + "/contacts/" + ToStr(contactId), "GET",
                                                     ApiHeaders(t.result.value), Obj(map[]))]))
  {
    assert ApiBase + ContactEndpoint(contactId) == ApiBase + "/contacts/" + ToStr(contactId);
    CallApi(env, cache, now, ContactEndpoint(contactId), "GET", Obj(map[]), answers)
  }

  /** The module's state: the token cache, the requests sent so far, and the token file. */
  class Client {
    const env: Env
    const store: TokenFile
    /** `tokenCache` */
    var cache: Record
    /** Every request handed to axios, in order. */
    var sent: seq<Request>

    ghost predicate Valid()
      reads store
    {
      store.Valid()
    }

    /** The call did what step s says, with result r. */
    twostate predicate Did<T>(new s: Step<T>, new r: Result<T>)
      reads this, store
    {
      && r == s.result
      && cache == s.cache
      && sent == old(sent) + s.requests
      && store.state == Perform(old(store.state), old(store.writable), s.ops)
      && store.writable == old(store.writable)
    }

    /** Loading the module: `let tokenCache = loadTokens()` (services/ghl.js:11). */
    constructor (env: Env, store: TokenFile)
      requires store.Valid()
      ensures Valid() && this.env == env && this.store == store
      ensures cache == LoadTokens(store.state) && sent == []
    {
      this.env := env;
      this.store := store;
      cache := LoadTokens(store.state);
      sent := [];
    }

    method ExchangeCodeForToken(code: Json, now: int, answer: Result<TokenGrant>) returns (r: Result<Record>)
      requires Valid()
      modifies this`cache, this`sent, store`state
      ensures Valid() && Did(Exchange(env, old(cache), code, now, answer), r)
    {
      ghost var f := store.state;
      sent := sent + [FormPost(TokenUrl, ExchangeForm(env, code))];
      if answer.Err? {
        return Err(answer.error);
      }
      var data := answer.value;
      cache := GrantedRecord(data, now);
      store.SaveTokens(cache);
      if Truthy(data.locationId) {
        store.SaveLocationId(data.locationId);
        PerformSaveTokensAndLocationId(f, store.writable, cache, data.locationId);
      } else {
        PerformSaveTokens(f, store.writable, cache);
      }
      r := Ok(cache);
    }

    method RefreshTokenIfNeeded(now: int, answer: Result<TokenGrant>) returns (r: Result<Json>)
      requires Valid()
      modifies this`cache, this`sent, store`state
      ensures Valid() && Did(Refresh(env, old(cache), now, answer), r)
    {
      if Truthy(EnvValue(env, OverrideVar)) {
        return Ok(EnvValue(env, OverrideVar));
      }
      if NeedsRefresh(cache, now) {
        if !Truthy(Field(cache, "refresh_token")) {
          return Err(NoRefreshToken);
        }
        sent := sent + [FormPost(TokenUrl, RefreshForm(env, Field(cache, "refresh_token")))];
        if answer.Err? {
          return Err(answer.error);
        }
        cache := RefreshedRecord(cache, answer.value, now);
        PerformSaveTokens(store.state, store.writable, cache);
        store.SaveTokens(cache);
      }
      r := Ok(Field(cache, "access_token"));
    }

    method CallGhlApi(endpoint: string, verb: string, body: Json, now: int, answers: Answers) returns (r: Result<Json>)
      requires Valid()
      modifies this`cache, this`sent, store`state
      ensures Valid() && Did(CallApi(env, old(cache), now, endpoint, verb, body, answers), r)
    {
      var token := RefreshTokenIfNeeded(now, answers.token);
      if token.Err? {
        return Err(token.error);
      }
      sent := sent + [JsonCall(ApiBase + endpoint, verb, ApiHeaders(token.value), body)];
      r := answers.api;
    }

    /** `name = ""` as a default and `name || ""` give the same body, so one parameter covers both. */
    method UpsertContact(phone: Json, name: Json, now: int, answers: Answers) returns (r: Result<Json>)
      requires Valid()
      modifies this`cache, this`sent, store`state
      ensures Valid() && Did(Upsert(env, old(cache), GetLocationId(old(store.state)), phone, name, now, answers), r)
    {
      var locationId := GetLocationId(store.state);
      if !Truthy(locationId) {
        return Err(MissingLocationId);
      }
      r := CallGhlApi("/contacts/upsert", "POST", UpsertBody(locationId, phone, name), now, answers);
    }

    /** The location id it reads is only logged; date is `new Date().toISOString()`. */
    method SendMessageToGhl(contactId: Json, message: Json, date: string, now: int, answers: Answers) returns (r: Result<Json>)
      requires Valid()
      modifies this`cache, this`sent, store`state
      ensures Valid() && Did(SendMessage(env, old(cache), contactId, message, date, now, answers), r)
    {
      r := CallGhlApi("/conversations/messages/inbound", "POST", InboundMessageBody(contactId, message, date), now, answers);
    }

    method GetContactDetails(contactId: Json, now: int, answers: Answers) returns (r: Result<Json>)
      requires Valid()
      modifies this`cache, this`sent, store`state
      ensures Valid() && Did(ContactDetails(env, old(cache), contactId, now, answers), r)
    {
      r := CallGhlApi(ContactEndpoint(contactId), "GET", Obj(map[]), now, answers);
    }
  }
}
