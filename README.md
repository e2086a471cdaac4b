# ghl-podium-sync in Dafny

ghl-podium-sync is a small HTTP relay between a CRM (GoHighLevel, "GHL") and
a messaging platform (Podium). Both platforms authorise it through OAuth. It
keeps their tokens in one shared JSON file, `tokens.json`. It forwards
messages in both directions through two webhooks:

- a Podium delivery becomes a contact upsert plus an inbound message in the CRM;
- a CRM delivery becomes a contact lookup plus an outgoing Podium message.

This project models the sequential logic under that I/O and proves
properties of the model. The remote answers, the clock and the environment
are inputs.

| file | module | models |
|---|---|---|
| `js.dfy` | `Js` | JavaScript values: truthiness, `\|\|`, `?.`, strict property reads, `String()`, `split(sep)[0]`, and the JSON.stringify/parse round trip |
| `http.dfy` | `Http` | the environment, the errors the services raise, the requests handed to axios, and token-endpoint answers |
| `token_store.dfy` | `TokenStore` | `tokenStore.js`: the token file as a `FileState` in the `TokenFile` class; read, write (which can fail), and the save/load operations |
| `oauth.dfy` | `OAuth` | the expiry rule and the token records that both services build after an exchange or a refresh |
| `ghl.dfy` | `Ghl` | `services/ghl.js`: the token cache, the override token, the exchange, the refresh, API calls and request bodies |
| `podium.dfy` | `Podium` | `services/podium.js`: its own throwing save/load, the exchange, the refresh, the send payload, webhook registration and the OAuth callback |
| `relay.dfy` | `Relay` | the `/webhook/podium` and `/webhook/ghl` handlers of `index.js`: normalisation, the discard rule, call order and the status sent back |

Each service operation appears twice:

- as a pure function from its inputs to a `Step`. Properties are stated
  about these functions. A `Step` holds the result and the requests sent, in
  order. `Ghl.Step` also holds the new token cache and the token-store
  operations performed, in order. `Podium.Step` holds the token file after
  the call instead;
- as a method of a class that holds the state the JavaScript module mutates:
  `TokenStore.TokenFile`, `Ghl.Client` with `tokenCache`, `Podium.Client`
  and `Relay.Server`. Each method's postcondition says that it did what its
  function says.

Remote answers are parameters: `Answers` holds the token-endpoint answer and
the API answer.

The model follows the code in several places where a natural reading could
differ:

- The CRM client decides refreshes from its in-memory cache, never from the file.
- `services/podium.js` has its own save and load, which do not catch errors:
  - an empty or corrupt file raises `FileSyntaxError`, where `tokenStore.js`
    reads it as `{}`;
  - a failed write raises `FileWriteError`;
  - a save replaces the podium record. `tokenStore.js`'s `savePodiumTokens`
    merges into it (`Podium.ReplaceVersusMerge`).
- What the file holds is what a JSON round trip keeps (`Js.Jsonify`). A token
  field whose value is `undefined` is therefore not stored.
- `createPodiumWebhook` calls `split` on `process.env.PODIUM_REDIRECT_URI`
  before its `try`. When that variable is unset, the TypeError makes the OAuth
  callback answer 500, after the tokens have already been saved.

## Model

| member | source | states |
|---|---|---|
| Js.Get | index.js:100-102 | optional member access yields a value only for an object that has the key, and then that field |
| Js.PathFromUndefined | index.js:100 | an optional chain that starts at undefined stays undefined |
| Js.PathDefinedOnlyThroughObjects | index.js:100 | an optional chain yields a value only when every link before it is an object holding the next key |
| Js.Jsonify | tokenStore.js:21 | the JSON round trip keeps undefined-ness and truthiness of a value |
| Js.JsonifyIsJson | tokenStore.js:21 | what a round trip gives back is a parsed JSON value |
| Js.JsonIsFixpoint | tokenStore.js:12 | a parsed JSON value survives a further round trip unchanged |
| Js.JsonifyIdempotent | tokenStore.js:21 | two round trips give what one gives |
| Js.IndexFrom | services/podium.js:186 | `indexOf` from a position: the result is an occurrence at or after it, and there is none between it and the result (none at all for -1) |
| Js.SplitHead | services/podium.js:186 | `split(sep)[0]` is a prefix with no occurrence of sep inside it, ending at the first occurrence or at the end of the string |
| Http.FormValueOfDistinct | services/ghl.js:17-22 | in a form whose field names are distinct, reading a name back gives the value appended under it |
| Http.Bearer | services/ghl.js:83 | the Authorization header carries `String(token)` after `Bearer ` |
| TokenStore.JsonRecordIsJson | tokenStore.js:21 | a written record reads back as parsed JSON |
| TokenStore.JsonDocumentIsJson | tokenStore.js:21 | a written document reads back as parsed JSON |
| TokenStore.JsonRecordFixpoint | tokenStore.js:21 | a parsed record is rewritten without change |
| TokenStore.JsonRecordIdempotent | tokenStore.js:21 | rewriting a record twice is rewriting it once |
| TokenStore.Read | tokenStore.js:8-17 | a parsed file gives its document; a missing, empty or corrupt file gives `{}`; what is read is JSON |
| TokenStore.WriteFile | tokenStore.js:19-25 | a failed write leaves the file as it was; a successful one holds the round-tripped document |
| TokenStore.Merge | tokenStore.js:30 | `{ ...(x \|\| {}), ...t }` has exactly the keys of both; t's values win and the others keep x's |
| TokenStore.AfterSaveTokens | tokenStore.js:28-32 | a failed write leaves the file as it was; a successful one leaves a document with a ghl record |
| TokenStore.AfterSaveLocationId | tokenStore.js:39-43 | a failed write leaves the file as it was; a successful one leaves a document |
| TokenStore.AfterSavePodiumTokens | tokenStore.js:51-55 | a failed write leaves the file as it was; a successful one leaves a document with a podium record |
| TokenStore.LoadTokens | tokenStore.js:34-37 | a missing, empty or corrupt file gives `{}`; what is read from a parsed file is JSON |
| TokenStore.GetLocationId | tokenStore.js:45-48 | the result is truthy or null, and null when the file holds no document |
| TokenStore.LoadPodiumTokens | tokenStore.js:57-60 | a missing, empty or corrupt file gives `{}`; what is read from a parsed file is JSON |
| TokenStore.GetAllTokens | tokenStore.js:62-64 | a missing, empty or corrupt file gives the empty document |
| TokenStore.MergeThenStore | tokenStore.js:30 | shallow merge then a round trip: t's defined fields win, t's undefined fields are dropped, and other old fields are kept |
| TokenStore.LoadAfterSaveTokens | tokenStore.js:28-37 | loadTokens after saveTokens(t) returns every defined field of t and keeps the old fields t does not mention |
| TokenStore.LoadAfterFreshSaveTokens | tokenStore.js:28-37 | on an empty ghl record, a JSON record t reads back as exactly t |
| TokenStore.SaveTokensFrame | tokenStore.js:28-32 | saveTokens leaves the document's podium record and location id unchanged (including whether each is present), whether or not the write succeeds |
| TokenStore.LoadAfterSavePodiumTokens | tokenStore.js:51-60 | savePodiumTokens merges in the same way into the podium record |
| TokenStore.SavePodiumTokensFrame | tokenStore.js:51-55 | savePodiumTokens leaves the document's ghl record and location id unchanged (including whether each is present) |
| TokenStore.SaveTokensIdempotent | tokenStore.js:28-32 | saveTokens(t) twice leaves the same file as once |
| TokenStore.LocationIdAfterSave | tokenStore.js:39-48 | getLocationId after saveLocationId(x) gives x when x is truthy and null otherwise; the document's ghl and podium records are unchanged (including whether each is present) |
| TokenStore.Perform | services/ghl.js:35-40 | a sequence of store operations on an unwritable file leaves it unchanged |
| TokenStore.PerformSaveTokens | services/ghl.js:35 | performing one saveTokens operation is saveTokens |
| TokenStore.PerformSaveTokensAndLocationId | services/ghl.js:35-40 | performing saveTokens then saveLocationId is the two saves in that order |
| TokenStore.TokenFile.Write | tokenStore.js:19-25 | the file holds the round-tripped document, or is unchanged when the write fails |
| TokenStore.TokenFile.SaveTokens | tokenStore.js:28-32 | the file changes as AfterSaveTokens says |
| TokenStore.TokenFile.SaveLocationId | tokenStore.js:39-43 | the file changes as AfterSaveLocationId says |
| TokenStore.TokenFile.SavePodiumTokens | tokenStore.js:51-55 | the file changes as AfterSavePodiumTokens says |
| OAuth.NeedsRefresh | services/ghl.js:52 | with a numeric expiry, a refresh is due exactly when the access token is falsy or now has reached the expiry; a missing or falsy expiry counts as 0; without an access token a refresh is always due |
| OAuth.MissingExpiryForcesRefresh | services/podium.js:75 | a record without an expiry needs a refresh at every non-negative time |
| OAuth.ExpiresAt | services/ghl.js:31 | the expiry lies expires_in*1000 ms after now, so it is later than now exactly when the lifetime is positive |
| OAuth.GrantedRecord | services/ghl.js:28-32 | the record holds the answer's tokens and expires at now + expires_in*1000; with a truthy access token it needs a refresh exactly from then on |
| OAuth.RefreshedRecord | services/ghl.js:65-69 | the refresh token is the answer's when truthy, else the old one; a truthy refresh token is never lost; the expiry is now + expires_in*1000 |
| OAuth.RefreshMovesExpiryLater | services/ghl.js:68 | refreshing an expired record with a positive lifetime moves its expiry strictly later |
| Ghl.Override | services/ghl.js:50 | the override is in force exactly when GHL_ACCESS_TOKEN is set and non-empty, and is then that string |
| Ghl.ExchangeForm | services/ghl.js:17-22 | the form's fields in order are client_id, client_secret, grant_type, code, redirect_uri, with grant_type "authorization_code", the code and the configured values |
| Ghl.RefreshForm | services/ghl.js:55-59 | the form's fields in order are client_id, client_secret, grant_type, refresh_token, with grant_type "refresh_token" and the cached refresh token |
| Ghl.Exchange | services/ghl.js:16-43 | one token request; a failure changes nothing; on success the cache becomes the granted record and is returned; the store operations are "save the record", then "save the location id" only when it is truthy |
| Ghl.ExchangeStores | services/ghl.js:34-40 | after an exchange the ghl record has exactly the defined granted fields plus the old fields they do not mention, with the granted values; the stored location id is the answer's when truthy, else the document's old one; the document's podium record is unchanged |
| Ghl.Refresh | services/ghl.js:48-75 | the override is returned verbatim with no effect; a valid cached token is returned with no effect; a due refresh without a refresh token fails with no effect; a token request goes out exactly when a refresh is due and possible; only a successful refresh changes and saves the cache |
| Ghl.RefreshedTokenIsReused | services/ghl.js:52-74 | after a refresh whose answer carries a truthy access token, later calls before the new expiry return that token with no request |
| Ghl.RefreshKeepsRefreshToken | services/ghl.js:67 | whenever a refresh is attempted the cache still holds a truthy refresh token afterwards |
| Ghl.ApiHeaders | services/ghl.js:83 | Bearer token, Content-Type `application/json` and Version 2021-07-28, and no other header |
| Ghl.CallApi | services/ghl.js:80-117 | the token step's effects are the call's; without a token no API request is sent; with one, exactly one request to the API base + endpoint follows, and its answer is the result |
| Ghl.OverrideUsedVerbatim | services/ghl.js:50-83 | with the override set, each API call sends one request carrying the override, and the cache and store are untouched |
| Ghl.UpsertBody | services/ghl.js:126-130 | the body holds locationId and phone, and name, or "" when the name is falsy |
| Ghl.Upsert | services/ghl.js:122-132 | without a stored location id it fails before any request; otherwise it is the POST of the body to /contacts/upsert |
| Ghl.InboundMessageBody | services/ghl.js:152-159 | exactly the keys type, conversationProviderId, contactId, message, direction and date: an inbound SMS for the contact, with the fixed conversation provider id and the given date |
| Ghl.SendMessage | services/ghl.js:149-161 | with a token, exactly one POST of the inbound body to /conversations/messages/inbound follows the token requests |
| Ghl.ContactEndpoint | services/ghl.js:165 | the endpoint is "/contacts/" followed by the contact id as a string |
| Ghl.ContactDetails | services/ghl.js:163-166 | with a token, exactly one GET of the contact's URL with an empty body follows the token requests |
| Ghl.Client.constructor | services/ghl.js:11 | the cache starts as loadTokens() of the file |
| Ghl.Client.ExchangeCodeForToken | services/ghl.js:16-43 | cache, request log and file change as Ghl.Exchange says |
| Ghl.Client.RefreshTokenIfNeeded | services/ghl.js:48-75 | cache, request log and file change as Ghl.Refresh says |
| Ghl.Client.CallGhlApi | services/ghl.js:80-117 | cache, request log and file change as Ghl.CallApi says |
| Ghl.Client.UpsertContact | services/ghl.js:122-132 | cache, request log and file change as Ghl.Upsert with the stored location id says |
| Ghl.Client.SendMessageToGhl | services/ghl.js:149-161 | cache, request log and file change as Ghl.SendMessage says |
| Ghl.Client.GetContactDetails | services/ghl.js:163-166 | cache, request log and file change as Ghl.ContactDetails says |
| Podium.LoadOutcome | services/podium.js:21-25 | it fails exactly on an empty or corrupt file; otherwise it is what loadPodiumTokens of the token store reads |
| Podium.SaveOutcome | services/podium.js:14-19 | it succeeds exactly on a writable missing or parsed file; a failure leaves the file unchanged |
| Podium.SaveThenLoad | services/podium.js:14-25 | after a save, load returns the saved record (exactly, for a JSON record); the document's ghl record and location id are unchanged |
| Podium.ReplaceVersusMerge | services/podium.js:17 | an old podium field that the new tokens do not mention survives savePodiumTokens of the token store, and is lost by this save |
| Podium.ExchangeForm | services/podium.js:52-57 | the form's fields in order are grant_type, code, client_id, client_secret, redirect_uri, with grant_type "authorization_code", the code and the configured values |
| Podium.RefreshForm | services/podium.js:78-82 | the form's fields in order are grant_type, refresh_token, client_id, client_secret, with grant_type "refresh_token" and the stored refresh token |
| Podium.Exchange | services/podium.js:51-68 | one token request; the result is the granted record and nothing is saved |
| Podium.Refresh | services/podium.js:73-97 | an unreadable file fails before any request; a valid stored token is returned with no request or save; a due refresh without a refresh token fails and saves nothing; a request goes out exactly when a refresh is due and possible; the refreshed record then replaces the stored one |
| Podium.RefreshStoresRecord | services/podium.js:88-96 | after a successful refresh the new access token is returned and the file holds the refreshed record, whose refresh token falls back to the old one |
| Podium.Headers | services/podium.js:139-142 | Bearer token and Content-Type `application/json`, and no other header |
| Podium.ApiUrl | services/podium.js:124 | the URL is PODIUM_BASE_URL followed by the path, with "undefined" in place of an unset base URL |
| Podium.MessagePayload | services/podium.js:126-135 | channel with exactly {type "phone", identifier phone}, setOpenInbox false, body, contactName and locationUid, and nothing else |
| Podium.Send | services/podium.js:122-152 | without a token nothing is posted; with one, the payload is posted once to the base URL + /messages after the token requests |
| Podium.WebhookTarget | services/podium.js:186-193 | the URL ends in /webhook/podium after a prefix of the redirect URI that ends at its first "/oauth", or is the whole URI when "/oauth" does not occur |
| Podium.WebhookBody | services/podium.js:191-195 | the body has exactly the target URL, the event types ["message.received"] and the location uid |
| Podium.CreateWebhook | services/podium.js:184-207 | it fails with a TypeError and sends nothing exactly when the redirect URI is unset; otherwise it posts the body once, and the answer does not matter |
| Podium.CallbackPlan | services/podium.js:31-33 | an error parameter short-circuits first, then a missing code; a code is exchanged only when there is no error |
| Podium.CallbackOutcome | services/podium.js:30-46 | a short-circuit sends and saves nothing; otherwise the exchange comes first, then the save, then webhook registration with the new access token; a failure in any of them gives the 500 page |
| Podium.Client.SaveTokens | services/podium.js:14-19 | result and file as Podium.SaveOutcome says |
| Podium.Client.LoadTokens | services/podium.js:21-25 | the result is Podium.LoadOutcome of the file |
| Podium.Client.ExchangeCodeForToken | services/podium.js:51-68 | request log, result and file as Podium.Exchange says |
| Podium.Client.RefreshTokenIfNeeded | services/podium.js:73-97 | request log, result and file as Podium.Refresh says |
| Podium.Client.SendToPodium | services/podium.js:122-152 | request log, result and file as Podium.Send says |
| Podium.Client.CreatePodiumWebhook | services/podium.js:184-207 | request log and result as Podium.CreateWebhook says |
| Podium.Client.PodiumCallback | services/podium.js:30-46 | reply, request log and file as Podium.CallbackOutcome says |
| Relay.Data | index.js:98 | the `data` field when it is truthy, else the payload itself |
| Relay.SenderName | index.js:102 | contactName, else contact.name, else "Podium User"; always truthy |
| Relay.Normalize | index.js:97-107 | a delivery is kept exactly when its phone and its message are truthy, and then carries them and the sender name |
| Relay.WrappedIsFlat | index.js:98 | for a truthy d with no truthy `data` field of its own, `{data: d}` normalises as d does |
| Relay.RelayedPhoneHasPath | index.js:100 | a relayed phone was reached through a conversation object and a channel object |
| Relay.ContactId | index.js:110 | the strict read throws exactly when the answer or its contact is undefined or null, and otherwise agrees with the optional chain |
| Relay.PodiumRelay | index.js:91-119 | always status 200; a dropped delivery makes no call; otherwise one upsert comes first, then a message is forwarded exactly when the upsert gave a contact id |
| Relay.DisplayName | index.js:175 | first name, a space and last name, each as String(); it throws when the answer has no contact object |
| Relay.DisplayNameSplitsBack | index.js:175 | a first name without spaces is recovered by splitting the joined name at its first space |
| Relay.GhlRelay | index.js:166-181 | the contact lookup comes first; the send follows exactly when the lookup named a contact; status 200 only when both succeed, else 500 |
| Relay.Server.PodiumWebhook | index.js:91-119 | status and call trace as Relay.PodiumRelay says |
| Relay.Server.GhlWebhook | index.js:166-181 | status and call trace as Relay.GhlRelay says |

## Left out

- HTTP transport is left out: axios, Express routing and response pages. Each remote answer is an input (`Answers`, `Result<Json>`). HTML page text and error-message text are not modelled, only which page is sent.
- File-system details are left out: `existsSync`, encodings, and the two-space JSON indentation. The file is one of missing, empty, corrupt or a parsed document. Whether writes succeed is a field of `TokenFile`.
- A token file holding valid JSON that is not an object of objects is not modelled, for example `{"ghl": 5}` or a top-level array. `Document` has only object-valued records. A document with top-level keys other than `ghl`, `podium` and `location_id` is not modelled either: `_read` followed by `_write` keeps such keys in JavaScript, and `Document` has no place for them.
- Logging (`console.log`/`console.error`) is not modelled, because it has no effect on the state.
- The environment is an input map, and dotenv loading is not modelled. The Podium base URL is read from that map, where the module reads it once when it loads.
- The clock is an input. One `now` is used both for the expiry decision and for the new expiry, where the source reads `Date.now()` twice.
- The ISO-8601 date of an inbound message is an opaque string parameter of `Ghl.SendMessage`.
- JavaScript numbers are integers in the model, and floating point is not modelled.
- A token answer is modelled with an integer `expires_in`, so an answer whose `expires_in` is not a number is outside the model. In JavaScript an `expires_in` that is absent or does not convert to a number gives a NaN expiry, and `NaN || 0` then forces a refresh on every call; a numeric string is converted by `*` and acts as that number, and null gives an expiry equal to now.
- OAuth.NeedsRefresh: comparing `now` with a string or array `expires_at` is false in the model. JavaScript would convert a numeric string, which a parsed file can hold, to a number.
- Concurrency is not modelled: neither overlapping webhook deliveries nor interleaved read-modify-write of `tokens.json`. Calls are composed sequentially.
- The `/oauth/callback` handler and the `/test-contact` route of index.js are left out. They are thin wrappers around `Ghl.Exchange` and `Ghl.Upsert`, which are modelled.
- The OAuth start redirects (index.js:34-37, 61-71) and the home page are left out; they only format configuration into a URL.
- Commented-out earlier versions of functions are left out (services/podium.js, services/ghl.js, index.js).
- The Podium webhook sends its status twice. The model records one 200 acknowledgement.
- Relay.PodiumRelay and Relay.GhlRelay: the handlers' downstream calls are recorded in a call trace, and each call's result is an input. The relay is not composed with `Ghl.Client` and `Podium.Client` in one program.
