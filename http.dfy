/**
 * What the services exchange with the outside world: the environment
 * (`process.env`), the errors they raise, the HTTP requests they hand to
 * axios and the remote answers, which the model takes as inputs.
 */
module Http {
  import opened Js

  /** `process.env`: the variables that are set, with their values. */
  type Env = map<string, string>

  /** `process.env[name]`: undefined when the variable is not set. */
  function EnvValue(env: Env, name: string): Json
  {
    if name in env then Str(env[name]) else Undefined
  }

  datatype Error =
    | RemoteError(status: int, body: Json)  // axios rejects on a non-2xx answer
    | NoRefreshToken                        // a refresh is due but no refresh token is known
    | MissingLocationId                     // contact upsert before the CRM OAuth flow stored a location
    | TypeError                             // a property read on undefined or null
    | FileSyntaxError                       // JSON.parse of an empty or corrupt token file
    | FileWriteError                        // writeFileSync failed

  datatype Result<T> = Ok(value: T) | Err(error: Error)

  /** One request handed to axios. */
  datatype Request =
    | FormPost(url: string, form: seq<(string, string)>)    // x-www-form-urlencoded body
    | JsonCall(url: string, verb: string, headers: map<string, string>, body: Json)

  /** `params.append(name, value)` on URLSearchParams converts the value with String(). */
  function FormField(name: string, value: Json): (string, string)
  {
    (name, ToStr(value))
  }

  /** `params.get(name)` on the form: the value of the first field with that name. */
  function FormValue(form: seq<(string, string)>, name: string): Option<string>
    decreases |form|
  {
    if form == [] then None
    else if form[0].0 == name then Some(form[0].1)
    else FormValue(form[1..], name)
  }

  predicate DistinctNames(form: seq<(string, string)>)
  {
    forall i, j :: 0 <= i < j < |form| ==> form[i].0 != form[j].0
  }

  /** In a form whose names are distinct, each name reads back its own value. */
  lemma {:induction false} FormValueOfDistinct(form: seq<(string, string)>)
    requires DistinctNames(form)
    ensures forall i :: 0 <= i < |form| ==> FormValue(form, form[i].0) == Some(form[i].1)
    decreases |form|
  {
    if form != [] {
      FormValueOfDistinct(form[1..]);
      forall i | 0 < i < |form|
        ensures FormValue(form, form[i].0) == Some(form[i].1)
      {
        assert form[1..][i - 1] == form[i];
      }
    }
  }

  /** The field names of a form, in order. */
  function FormNames(form: seq<(string, string)>): seq<string>
  {
    seq(|form|, i requires 0 <= i < |form| => form[i].0)
  }

  /** `Bearer ${token}`: the Authorization header value. */
  function Bearer(token: Json): (h: string)
    ensures BearerToken(h) == Some(ToStr(token))
  {
    "Bearer " + ToStr(token)
  }

  /** The token an Authorization header carries, if it is a Bearer header. */
  function BearerToken(h: string): Option<string>
  {
    if |h| >= 7 && h[..7] == "Bearer " then Some(h[7..]) else None
  }

  /** The fields of a token endpoint's JSON answer that the services read;
      expires_in is a whole number of seconds. */
  datatype TokenGrant = TokenGrant(accessToken: Json, refreshToken: Json, expiresIn: int, locationId: Json)

  /** What the token endpoint and the called API would answer, if asked. */
  datatype Answers = Answers(token: Result<TokenGrant>, api: Result<Json>)
}
