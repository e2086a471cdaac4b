/**
 * services/podium.js: the messaging-platform client. Unlike the CRM client
 * it keeps no cache: every refresh decision reads the token file, through
 * its own saveTokens/loadTokens, which catch nothing (an empty or corrupt
 * file and a failed write raise errors) and which replace the whole podium
 * record instead of merging into it. After the OAuth callback it registers
 * a webhook whose target is derived from the redirect URI.
 */
module Podium {
  import opened Js
  import opened Http
  import opened OAuth
  import TokenStore

  type Record = TokenStore.Record
  type FileState = TokenStore.FileState

  const TokenUrl := "https://api.podium.com/oauth/token"
  const WebhookPath := "/webhook/podium"
  const OAuthMarker := "/oauth"

  /** loadTokens (services/podium.js:21-25). Where it succeeds it reads what
      the token store's loadPodiumTokens reads; an empty or corrupt file,
      which the token store reads as `{}`, makes JSON.parse throw. */
  function LoadOutcome(f: FileState): (r: Result<Record>)
    ensures r.Err? <==> f.Empty? || f.Corrupt?
    ensures r.Err? ==> r.error == FileSyntaxError
    ensures r.Ok? ==> r.value == TokenStore.LoadPodiumTokens(f)
  {
    match f
    case Missing => Ok(map[])
    case Stored(d) => Ok(GetOr(d.podium, map[]))
    case _ => Err(FileSyntaxError)
  }

  datatype Saved = Saved(result: Result<()>, file: FileState)

  /** saveTokens(tokens) (services/podium.js:14-19): the podium record is replaced, not merged into. */
  function SaveOutcome(f: FileState, writable: bool, tokens: Record): (s: Saved)
    ensures s.result.Ok? <==> writable && (f.Missing? || f.Stored?)
    ensures s.result.Err? ==> s.file == f
    ensures (f.Empty? || f.Corrupt?) ==> s.result == Err(FileSyntaxError)
    ensures (f.Missing? || f.Stored?) && !writable ==> s.result == Err(FileWriteError)
  {
    var all := match f
      case Missing => Ok(TokenStore.EmptyDocument)
      case Stored(d) => Ok(d)
      case _ => Err(FileSyntaxError);
    match all
    case Err(e) => Saved(Err(e), f)
    case Ok(d) =>
      if writable then Saved(Ok(()), TokenStore.WriteFile(f, true, d.(podium := Some(tokens))))
      else Saved(Err(FileWriteError), f)
  }

  /** After a successful save, loadTokens gives back the saved record as JSON
      keeps it (an exact copy when it has no undefined field); the ghl record
      and the location id survive. */
  lemma {:induction false} SaveThenLoad(f: FileState, writable: bool, tokens: Record)
    requires TokenStore.IsJsonFile(f) && SaveOutcome(f, writable, tokens).result.Ok?
    ensures var g := SaveOutcome(f, writable, tokens).file;
      && LoadOutcome(g) == Ok(TokenStore.JsonRecord(tokens))
      && (TokenStore.IsJsonRecord(tokens) ==> LoadOutcome(g) == Ok(tokens))
      && TokenStore.Read(g).ghl == TokenStore.Read(f).ghl
      && TokenStore.Read(g).locationId == TokenStore.Read(f).locationId
      && TokenStore.LoadTokens(g) == TokenStore.LoadTokens(f)
      && TokenStore.GetLocationId(g) == TokenStore.GetLocationId(f)
  {
    if TokenStore.IsJsonRecord(tokens) {
      TokenStore.JsonRecordFixpoint(tokens);
    }
    if f.Stored? {
      if f.doc.ghl.Some? { TokenStore.JsonRecordFixpoint(f.doc.ghl.value); }
      if !f.doc.locationId.Undefined? { JsonIsFixpoint(f.doc.locationId); }
    }
  }

  /** Where the two writers of the podium record differ: a field of the old
      record that the new tokens do not mention survives the token store's
      savePodiumTokens and is lost by this file's saveTokens. */
  lemma {:induction false} ReplaceVersusMerge(f: FileState, tokens: Record, k: string)
    requires TokenStore.IsJsonFile(f) && f.Stored?
    requires k in TokenStore.LoadPodiumTokens(f) && k !in tokens
    ensures k in TokenStore.LoadPodiumTokens(TokenStore.AfterSavePodiumTokens(f, true, tokens))
    ensures LoadOutcome(SaveOutcome(f, true, tokens).file).Ok?
    ensures k !in LoadOutcome(SaveOutcome(f, true, tokens).file).value
  {
    TokenStore.LoadAfterSavePodiumTokens(f, tokens);
  }

  /** What one call does: its result, the file after it and the requests it sent in order. */
  datatype Step<T> = Step(result: Result<T>, file: FileState, requests: seq<Request>)

  /** The token-endpoint form of a code exchange (services/podium.js:52-57). */
  function ExchangeForm(env: Env, code: Json): (form: seq<(string, string)>)
    ensures FormNames(form) == ["grant_type", "code", "client_id", "client_secret", "redirect_uri"]
    ensures FormValue(form, "grant_type") == Some("authorization_code")
    ensures FormValue(form, "code") == Some(ToStr(code))
    ensures FormValue(form, "client_id") == Some(ToStr(EnvValue(env, "PODIUM_CLIENT_ID")))
    ensures FormValue(form, "client_secret") == Some(ToStr(EnvValue(env, "PODIUM_CLIENT_SECRET")))
    ensures FormValue(form, "redirect_uri") == Some(ToStr(EnvValue(env, "PODIUM_REDIRECT_URI")))
  {
    var form :=
      [FormField("grant_type", Str("authorization_code")),
       FormField("code", code),
       FormField("client_id", EnvValue(env, "PODIUM_CLIENT_ID")),
       FormField("client_secret", EnvValue(env, "PODIUM_CLIENT_SECRET")),
       FormField("redirect_uri", EnvValue(env, "PODIUM_REDIRECT_URI"))];
    FormValueOfDistinct(form);
    assert FormValue(form, form[0].0) == Some(form[0].1);
    assert FormValue(form, form[1].0) == Some(form[1].1);
    assert FormValue(form, form[2].0) == Some(form[2].1);
    assert FormValue(form, form[3].0) == Some(form[3].1);
    assert FormValue(form, form[4].0) == Some(form[4].1);
    form
  }

  /** The token-endpoint form of a refresh (services/podium.js:78-82). */
  function RefreshForm(env: Env, refreshToken: Json): (form: seq<(string, string)>)
    ensures FormNames(form) == ["grant_type", "refresh_token", "client_id", "client_secret"]
    ensures FormValue(form, "grant_type") == Some("refresh_token")
    ensures FormValue(form, "refresh_token") == Some(ToStr(refreshToken))
    ensures FormValue(form, "client_id") == Some(ToStr(EnvValue(env, "PODIUM_CLIENT_ID")))
    ensures FormValue(form, "client_secret") == Some(ToStr(EnvValue(env, "PODIUM_CLIENT_SECRET")))
  {
    var form :=
      [FormField("grant_type", Str("refresh_token")),
       FormField("refresh_token", refreshToken),
       FormField("client_id", EnvValue(env, "PODIUM_CLIENT_ID")),
       FormField("client_secret", EnvValue(env, "PODIUM_CLIENT_SECRET"))];
    FormValueOfDistinct(form);
    assert FormValue(form, form[0].0) == Some(form[0].1);
    assert FormValue(form, form[1].0) == Some(form[1].1);
    assert FormValue(form, form[2].0) == Some(form[2].1);
    assert FormValue(form, form[3].0) == Some(form[3].1);
    form
  }

  /** exchangeCodeForToken (services/podium.js:51-68): one token request, whose
      answer becomes a fresh record; nothing is saved here. */
  function Exchange(env: Env, f: FileState, code: Json, now: int, answer: Result<TokenGrant>): (s: Step<Record>)
    ensures s.requests == [FormPost(TokenUrl, ExchangeForm(env, code))] && s.file == f
    ensures answer.Err? ==> s.result == Err(answer.error)
    ensures answer.Ok? ==> s.result == Ok(GrantedRecord(answer.value, now))
  {
    var request := FormPost(TokenUrl, ExchangeForm(env, code));
    match answer
    case Err(e) => Step(Err(e), f, [request])
    case Ok(g) => Step(Ok(GrantedRecord(g, now)), f, [request])
  }

  /** refreshTokenIfNeeded (services/podium.js:73-97): reads the file afresh each time. */
  function Refresh(env: Env, f: FileState, writable: bool, now: int, answer: Result<TokenGrant>): (s: Step<Json>)
    // an unreadable file fails before anything is sent
    ensures LoadOutcome(f).Err? ==> s == Step(Err(FileSyntaxError), f, [])
    // a valid stored token is returned, without a token request or a save
    ensures LoadOutcome(f).Ok? && !NeedsRefresh(LoadOutcome(f).value, now)
      ==> s == Step(Ok(TokenStore.Field(LoadOutcome(f).value, "access_token")), f, [])
    // a due refresh without a stored refresh token fails, and nothing is saved
    ensures LoadOutcome(f).Ok? && NeedsRefresh(LoadOutcome(f).value, now)
            && !Truthy(TokenStore.Field(LoadOutcome(f).value, "refresh_token"))
      ==> s == Step(Err(NoRefreshToken), f, [])
    // a token request is sent exactly when a refresh is due and possible
    ensures s.requests != [] <==>
      LoadOutcome(f).Ok? && NeedsRefresh(LoadOutcome(f).value, now)
      && Truthy(TokenStore.Field(LoadOutcome(f).value, "refresh_token"))
    ensures s.requests != [] ==>
      s.requests == [FormPost(TokenUrl, RefreshForm(env, TokenStore.Field(LoadOutcome(f).value, "refresh_token")))]
    // after a refresh the refreshed record replaces the stored one, and its access token is returned
    ensures s.requests != [] && answer.Ok? ==>
      var saved := SaveOutcome(f, writable, RefreshedRecord(LoadOutcome(f).value, answer.value, now));
      s.file == saved.file
      && s.result == (if saved.result.Ok? then Ok(answer.value.accessToken) else Err(saved.result.error))
    ensures s.requests != [] && answer.Err? ==> s.result == Err(answer.error) && s.file == f
  {
    match LoadOutcome(f)
    case Err(e) => Step(Err(e), f, [])
    case Ok(tokens) =>
      if !NeedsRefresh(tokens, now) then Step(Ok(TokenStore.Field(tokens, "access_token")), f, [])
      else if !Truthy(TokenStore.Field(tokens, "refresh_token")) then Step(Err(NoRefreshToken), f, [])
      else
        var request := FormPost(TokenUrl, RefreshForm(env, TokenStore.Field(tokens, "refresh_token")));
        match answer
        case Err(e) => Step(Err(e), f, [request])
        case Ok(g) =>
          var saved := SaveOutcome(f, writable, RefreshedRecord(tokens, g, now));
          match saved.result
          case Err(e) => Step(Err(e), saved.file, [request])
          case Ok(_) => Step(Ok(g.accessToken), saved.file, [request])
  }

  /** After a successful refresh the file holds the refreshed record: the new
      access token and expiry, and the old refresh token when the answer had none. */
  lemma {:induction false} RefreshStoresRecord(env: Env, f: FileState, now: int, g: TokenGrant)
    requires TokenStore.IsJsonFile(f)
    requires var s := Refresh(env, f, true, now, Ok(g)); s.requests != []
    ensures var s := Refresh(env, f, true, now, Ok(g));
            var stored := LoadOutcome(s.file);
      && s.result == Ok(g.accessToken)
      && stored == Ok(TokenStore.JsonRecord(RefreshedRecord(LoadOutcome(f).value, g, now)))
      && TokenStore.Field(stored.value, "refresh_token")
         == (if Truthy(g.refreshToken) then Jsonify(g.refreshToken) else TokenStore.Field(LoadOutcome(f).value, "refresh_token"))
  {
    var old_ := LoadOutcome(f).value;
    var record := RefreshedRecord(old_, g, now);
    SaveThenLoad(f, true, record);
    if !Truthy(g.refreshToken) {
      var t := TokenStore.Field(old_, "refresh_token");
      assert "refresh_token" in old_;
      JsonIsFixpoint(t);
    }
  }

  /** The headers of every messaging API call (services/podium.js:139-142, 197-200). */
  function Headers(token: Json): (h: map<string, string>)
    ensures "Authorization" in h && BearerToken(h["Authorization"]) == Some(ToStr(token))
    ensures "Content-Type" in h && h["Content-Type"] == "application/json"
    ensures h.Keys == {"Authorization", "Content-Type"}
  {
    map["Authorization" := Bearer(token), "Content-Type" := "application/json"]
  }

  /** `${baseURL}${path}`: the base URL is read from the environment when the module loads. */
  function ApiUrl(env: Env, path: string): (u: string)
    ensures |u| >= |path| && u[|u| - |path|..] == path
    ensures "PODIUM_BASE_URL" in env ==> u[..|u| - |path|] == env["PODIUM_BASE_URL"]
    // an unset base URL prints as "undefined"
    ensures "PODIUM_BASE_URL" !in env ==> u[..|u| - |path|] == "undefined"
  {
    ToStr(EnvValue(env, "PODIUM_BASE_URL")) + path
  }

  /** The message payload (services/podium.js:126-135). */
  function MessagePayload(phone: Json, message: Json, name: Json, locationUid: Json): (p: Json)
    ensures p.Obj? && p.fields.Keys == {"channel", "setOpenInbox", "body", "contactName", "locationUid"}
    ensures Get(p, "channel").Obj? && Get(p, "channel").fields.Keys == {"type", "identifier"}
    ensures Path(p, ["channel", "type"]) == Str("phone")
    ensures Path(p, ["channel", "identifier"]) == phone
    ensures Get(p, "setOpenInbox") == Bool(false)
    ensures Get(p, "body") == message && Get(p, "contactName") == name && Get(p, "locationUid") == locationUid
  {
    var channel := Obj(map["type" := Str("phone"), "identifier" := phone]);
    var p := Obj(map["channel" := channel,
                     "setOpenInbox" := Bool(false),
                     "body" := message,
                     "contactName" := name,
                     "locationUid" := locationUid]);
    assert Path(p, ["channel", "type"]) == Path(channel, ["type"]) == Path(Str("phone"), []);
    assert Path(p, ["channel", "identifier"]) == Path(channel, ["identifier"]) == Path(phone, []);
    p
  }

  /** sendToPodium(phone, message, name) (services/podium.js:122-152). */
  function Send(env: Env, f: FileState, writable: bool, phone: Json, message: Json, name: Json, now: int, answers: Answers): (s: Step<Json>)
    ensures var t := Refresh(env, f, writable, now, answers.token);
      && s.file == t.file
      // without a token nothing is posted and the token error is the result
      && (t.result.Err? ==> s.result == t.result && s.requests == t.requests)
      // with one, the payload is posted to the messages endpoint after the token requests
      && (t.result.Ok? ==>
            (&& s.result == answers.api
             && s.requests == t.requests + [JsonCall(ApiUrl(env, "/messages"), "POST", Headers(t.result.value),
                                                     MessagePayload(phone, message, name, EnvValue(env, "PODIUM_LOCATION_ID")))]))
  {
    var t := Refresh(env, f, writable, now, answers.token);
    match t.result
    case Err(e) => Step(Err(e), t.file, t.requests)
    case Ok(token) =>
      var payload := MessagePayload(phone, message, name, EnvValue(env, "PODIUM_LOCATION_ID"));
      Step(answers.api, t.file, t.requests + [JsonCall(ApiUrl(env, "/messages"), "POST", Headers(token), payload)])
  }

  /** `${redirectUri.split("/oauth")[0]}/webhook/podium`: the redirect URI cut
      before the first "/oauth" (all of it when there is none), then the
      webhook path. */
  function WebhookTarget(redirectUri: string): (u: string)
    ensures |u| >= |WebhookPath| && u[|u| - |WebhookPath|..] == WebhookPath
    ensures var base := u[..|u| - |WebhookPath|];
      && base <= redirectUri
      && (forall j :: 0 <= j < |base| ==> !OccursAt(redirectUri, OAuthMarker, j))
      && (base == redirectUri || OccursAt(redirectUri, OAuthMarker, |base|))
  {
    var base := SplitHead(redirectUri, OAuthMarker);
    var u := base + WebhookPath;
    assert u[..|u| - |WebhookPath|] == base;
    u
  }

  /** The registration body (services/podium.js:191-195). */
  function WebhookBody(env: Env, redirectUri: string): (b: Json)
    ensures b.Obj? && b.fields.Keys == {"locationUid", "url", "eventTypes"}
    ensures Get(b, "url") == Str(WebhookTarget(redirectUri))
    ensures Get(b, "eventTypes") == Arr([Str("message.received")])
    ensures Get(b, "locationUid") == EnvValue(env, "PODIUM_LOCATION_ID")
  {
    Obj(map["locationUid" := EnvValue(env, "PODIUM_LOCATION_ID"),
            "url" := Str(WebhookTarget(redirectUri)),
            "eventTypes" := Arr([Str("message.received")])])
  }

  datatype Registration = Registration(result: Result<()>, requests: seq<Request>)

  /** createPodiumWebhook(accessToken) (services/podium.js:184-207). Splitting
      an unset redirect URI throws before the try; the registration's own
      failure is caught and only logged, so its answer is no input here. */
  function CreateWebhook(env: Env, accessToken: Json): (w: Registration)
    ensures w.result.Err? <==> "PODIUM_REDIRECT_URI" !in env
    ensures w.result.Err? ==> w.result.error == TypeError && w.requests == []
    ensures w.result.Ok? ==>
      w.requests == [JsonCall(ApiUrl(env, "/webhooks"), "POST", Headers(accessToken), WebhookBody(env, env["PODIUM_REDIRECT_URI"]))]
  {
    if "PODIUM_REDIRECT_URI" !in env then Registration(Err(TypeError), [])
    else
      var body := WebhookBody(env, env["PODIUM_REDIRECT_URI"]);
      Registration(Ok(()), [JsonCall(ApiUrl(env, "/webhooks"), "POST", Headers(accessToken), body)])
  }

  /** The page podiumCallback sends back. */
  datatype Reply =
    | OAuthErrorPage(description: Json)   // status 200
    | NoCodePage                          // status 200
    | TokensSavedPage(tokens: Record)     // status 200
    | ExchangeErrorPage(error: Error)     // status 500

  /** What podiumCallback does with its query (services/podium.js:31-33). */
  datatype Plan = ShowOAuthError(description: Json) | ShowNoCode | ExchangeCode(code: Json)

  function CallbackPlan(query: Json): (p: Plan)
    ensures Truthy(Get(query, "error")) ==> p == ShowOAuthError(Get(query, "error_description"))
    ensures !Truthy(Get(query, "error")) && !Truthy(Get(query, "code")) ==> p == ShowNoCode
    ensures p.ExchangeCode? <==> !Truthy(Get(query, "error")) && Truthy(Get(query, "code"))
    ensures p.ExchangeCode? ==> p.code == Get(query, "code")
  {
    if Truthy(Get(query, "error")) then ShowOAuthError(Get(query, "error_description"))
    else if !Truthy(Get(query, "code")) then ShowNoCode
    else ExchangeCode(Get(query, "code"))
  }

  datatype Callback = Callback(reply: Reply, file: FileState, requests: seq<Request>)

  /** podiumCallback (services/podium.js:30-46): exchange, then save, then webhook registration. */
  function CallbackOutcome(env: Env, f: FileState, writable: bool, query: Json, now: int, answer: Result<TokenGrant>): (c: Callback)
    // a short-circuit sends nothing and saves nothing
    ensures !CallbackPlan(query).ExchangeCode? ==> c.requests == [] && c.file == f
    ensures CallbackPlan(query).ShowOAuthError? ==> c.reply == OAuthErrorPage(CallbackPlan(query).description)
    ensures CallbackPlan(query).ShowNoCode? ==> c.reply == NoCodePage
    // otherwise the token request comes first
    ensures CallbackPlan(query).ExchangeCode? ==>
      |c.requests| >= 1 && c.requests[0] == FormPost(TokenUrl, ExchangeForm(env, CallbackPlan(query).code))
    // a failed exchange saves nothing and registers nothing
    ensures CallbackPlan(query).ExchangeCode? && answer.Err? ==>
      c.reply == ExchangeErrorPage(answer.error) && c.file == f && |c.requests| == 1
    // a successful exchange is saved before the webhook is registered with its access token
    ensures CallbackPlan(query).ExchangeCode? && answer.Ok? ==>
      var tokens := GrantedRecord(answer.value, now);
      var saved := SaveOutcome(f, writable, tokens);
      && c.file == saved.file
      && (saved.result.Err? ==> c.reply == ExchangeErrorPage(saved.result.error) && |c.requests| == 1)
      && (saved.result.Ok? ==>
            var w := CreateWebhook(env, answer.value.accessToken);
            && c.requests == c.requests[..1] + w.requests
            && c.reply == (if w.result.Ok? then TokensSavedPage(tokens) else ExchangeErrorPage(w.result.error)))
  {
    match CallbackPlan(query)
    case ShowOAuthError(d) => Callback(OAuthErrorPage(d), f, [])
    case ShowNoCode => Callback(NoCodePage, f, [])
    case ExchangeCode(code) =>
      var x := Exchange(env, f, code, now, answer);
      match x.result
      case Err(e) => Callback(ExchangeErrorPage(e), f, x.requests)
      case Ok(tokens) =>
        var saved := SaveOutcome(f, writable, tokens);
        match saved.result
        case Err(e) => Callback(ExchangeErrorPage(e), saved.file, x.requests)
        case Ok(_) =>
          var w := CreateWebhook(env, tokens["access_token"]);
          var reply := if w.result.Ok? then TokensSavedPage(tokens) else ExchangeErrorPage(w.result.error);
          Callback(reply, saved.file, x.requests + w.requests)
  }

  /** The module's state: the requests sent so far and the shared token file. */
  class Client {
    const env: Env
    const file: TokenStore.TokenFile
    /** Every request handed to axios, in order. */
    var sent: seq<Request>

    ghost predicate Valid()
      reads file
    {
      file.Valid()
    }

    /** The call did what step s says, with result r. */
    twostate predicate Did<T>(new s: Step<T>, new r: Result<T>)
      reads this, file
    {
      && r == s.result
      && file.state == s.file
      && sent == old(sent) + s.requests
      && file.writable == old(file.writable)
    }

    constructor (env: Env, file: TokenStore.TokenFile)
      requires file.Valid()
      ensures Valid() && this.env == env && this.file == file && sent == []
    {
      this.env := env;
      this.file := file;
      sent := [];
    }

    method SaveTokens(tokens: Record) returns (r: Result<()>)
      requires Valid()
      modifies file`state
      ensures Valid()
      ensures var s := SaveOutcome(old(file.state), file.writable, tokens); r == s.result && file.state == s.file
    {
      var all: TokenStore.Document;
      match file.state {
        case Missing => all := TokenStore.EmptyDocument;
        case Stored(d) => all := d;
        case _ => return Err(FileSyntaxError);
      }
      all := all.(podium := Some(tokens));
      if !file.writable {
        return Err(FileWriteError);
      }
      TokenStore.JsonDocumentIsJson(all);
      file.state := TokenStore.Stored(TokenStore.JsonDocument(all));
      r := Ok(());
    }

    method LoadTokens() returns (r: Result<Record>)
      ensures r == LoadOutcome(file.state)
    {
      match file.state {
        case Missing => r := Ok(map[]);
        case Stored(d) => r := Ok(GetOr(d.podium, map[]));
        case _ => r := Err(FileSyntaxError);
      }
    }

    method ExchangeCodeForToken(code: Json, now: int, answer: Result<TokenGrant>) returns (r: Result<Record>)
      modifies this`sent
      ensures Did(Exchange(env, file.state, code, now, answer), r)
    {
      sent := sent + [FormPost(TokenUrl, ExchangeForm(env, code))];
      if answer.Err? {
        return Err(answer.error);
      }
      r := Ok(GrantedRecord(answer.value, now));
    }

    method RefreshTokenIfNeeded(now: int, answer: Result<TokenGrant>) returns (r: Result<Json>)
      requires Valid()
      modifies this`sent, file`state
      ensures Valid() && Did(Refresh(env, old(file.state), file.writable, now, answer), r)
    {
      var tokens := LoadTokens();
      if tokens.Err? {
        return Err(tokens.error);
      }
      var t := tokens.value;
      if NeedsRefresh(t, now) {
        if !Truthy(TokenStore.Field(t, "refresh_token")) {
          return Err(NoRefreshToken);
        }
        sent := sent + [FormPost(TokenUrl, RefreshForm(env, TokenStore.Field(t, "refresh_token")))];
        if answer.Err? {
          return Err(answer.error);
        }
        t := RefreshedRecord(t, answer.value, now);
        var saved := SaveTokens(t);
        if saved.Err? {
          return Err(saved.error);
        }
      }
      r := Ok(TokenStore.Field(t, "access_token"));
    }

    method SendToPodium(phone: Json, message: Json, name: Json, now: int, answers: Answers) returns (r: Result<Json>)
      requires Valid()
      modifies this`sent, file`state
      ensures Valid() && Did(Send(env, old(file.state), file.writable, phone, message, name, now, answers), r)
    {
      var token := RefreshTokenIfNeeded(now, answers.token);
      if token.Err? {
        return Err(token.error);
      }
      var payload := MessagePayload(phone, message, name, EnvValue(env, "PODIUM_LOCATION_ID"));
      sent := sent + [JsonCall(ApiUrl(env, "/messages"), "POST", Headers(token.value), payload)];
      r := answers.api;
    }

    /** The answer to the registration request is caught and ignored. */
    method CreatePodiumWebhook(accessToken: Json) returns (r: Result<()>)
      modifies this`sent
      ensures var w := CreateWebhook(env, accessToken); r == w.result && sent == old(sent) + w.requests
    {
      if "PODIUM_REDIRECT_URI" !in env {
        return Err(TypeError);
      }
      var body := WebhookBody(env, env["PODIUM_REDIRECT_URI"]);
      sent := sent + [JsonCall(ApiUrl(env, "/webhooks"), "POST", Headers(accessToken), body)];
      r := Ok(());
    }

    method PodiumCallback(query: Json, now: int, answer: Result<TokenGrant>) returns (reply: Reply)
      requires Valid()
      modifies this`sent, file`state
      ensures Valid()
      ensures var c := CallbackOutcome(env, old(file.state), file.writable, query, now, answer);
        reply == c.reply && file.state == c.file && sent == old(sent) + c.requests
    {
      ghost var f0 := file.state;
      ghost var c := CallbackOutcome(env, f0, file.writable, query, now, answer);
      var code := Get(query, "code");
      var error := Get(query, "error");
      if Truthy(error) {
        return OAuthErrorPage(Get(query, "error_description"));
      }
      if !Truthy(code) {
        return NoCodePage;
      }
      assert CallbackPlan(query) == ExchangeCode(code);
      ghost var x := Exchange(env, f0, code, now, answer);
      var tokens := ExchangeCodeForToken(code, now, answer);
      assert tokens == x.result;
      if tokens.Err? {
        assert c == Callback(ExchangeErrorPage(tokens.error), f0, x.requests);
        return ExchangeErrorPage(tokens.error);
      }
      ghost var s := SaveOutcome(f0, file.writable, tokens.value);
      var saved := SaveTokens(tokens.value);
      if saved.Err? {
        assert c == Callback(ExchangeErrorPage(saved.error), s.file, x.requests);
        return ExchangeErrorPage(saved.error);
      }
      ghost var w := CreateWebhook(env, tokens.value["access_token"]);
      var registered := CreatePodiumWebhook(tokens.value["access_token"]);
      assert c.file == s.file && c.requests == x.requests + w.requests;
      if registered.Err? {
        return ExchangeErrorPage(registered.error);
      }
      reply := TokensSavedPage(tokens.value);
    }
  }
}
