/**
 * The two webhook handlers of index.js. Each one normalises the delivered
 * body and then awaits the service calls in order. The model records those
 * calls in a trace. The result of each call is an input here, and
 * Ghl.Client and Podium.Client model what each call does.
 */
module Relay {
  import opened Js
  import opened Http

  /** A downstream service call the handlers make. */
  datatype Call =
    | UpsertContact(phone: Json, name: Json)
    | SendMessageToGhl(contactId: Json, message: Json)
    | GetContactDetails(contactId: Json)
    | SendToPodium(phone: Json, message: Json, name: Json)

  const PhonePath := ["conversation", "channel", "identifier"]
  const DefaultName := "Podium User"

  /** `payload.data || payload`: a delivery either wraps its fields in `data` or carries them itself. */
  function Data(payload: Json): (d: Json)
    ensures Truthy(Get(payload, "data")) ==> d == payload.fields["data"]
    ensures !Truthy(Get(payload, "data")) ==> d == payload
  {
    Or(Get(payload, "data"), payload)
  }

  /** `data?.contactName || data?.contact?.name || "Podium User"` */
  function SenderName(data: Json): (n: Json)
    ensures Truthy(n)
    ensures Truthy(Get(data, "contactName")) ==> n == Get(data, "contactName")
    ensures !Truthy(Get(data, "contactName")) && Truthy(Path(data, ["contact", "name"])) ==> n == Path(data, ["contact", "name"])
    ensures !Truthy(Get(data, "contactName")) && !Truthy(Path(data, ["contact", "name"])) ==> n == Str(DefaultName)
  {
    assert Path(data, ["contact", "name"]) == Path(Get(data, "contact"), ["name"]) == Get(Get(data, "contact"), "name");
    Or(Get(data, "contactName"), Or(Get(Get(data, "contact"), "name"), Str(DefaultName)))
  }

  /** The fields of an inbound Podium message that are relayed. */
  datatype Inbound = Inbound(phone: Json, message: Json, name: Json)

  /** index.js:97-107: extraction, and the rule that a delivery lacking a phone or a message is dropped. */
  function Normalize(payload: Json): (r: Option<Inbound>)
    ensures r.Some? <==> Truthy(Path(Data(payload), PhonePath)) && Truthy(Get(Data(payload), "body"))
    ensures r.Some? ==> && r.value.phone == Path(Data(payload), PhonePath)
                        && r.value.message == Data(payload).fields["body"]
                        && r.value.name == SenderName(Data(payload))
    ensures r.Some? ==> Truthy(r.value.phone) && Truthy(r.value.message) && Truthy(r.value.name)
  {
    var data := Data(payload);
    var phone := Path(data, PhonePath);
    var message := Get(data, "body");
    if !Truthy(phone) || !Truthy(message) then None
    else Some(Inbound(phone, message, SenderName(data)))
  }

  /** A wrapped delivery `{data: d}` is relayed exactly as the flat delivery d,
      unless d itself carries a truthy `data` field. */
  lemma WrappedIsFlat(d: Json)
    requires Truthy(d) && !Truthy(Get(d, "data"))
    ensures Normalize(Obj(map["data" := d])) == Normalize(d)
  {
  }

  /** A relayed phone number was found by following the conversation, then
      its channel, both of them objects. */
  lemma {:induction false} RelayedPhoneHasPath(payload: Json)
    requires Normalize(payload).Some?
    ensures var data := Data(payload);
      && data.Obj? && "conversation" in data.fields
      && Get(data, "conversation").Obj? && "channel" in Get(data, "conversation").fields
      && Get(Get(data, "conversation"), "channel").Obj?
      && "identifier" in Get(Get(data, "conversation"), "channel").fields
  {
    var data := Data(payload);
    PathDefinedOnlyThroughObjects(data, PhonePath, 0);
    PathDefinedOnlyThroughObjects(data, PhonePath, 1);
    PathDefinedOnlyThroughObjects(data, PhonePath, 2);
    assert PhonePath[..0] == [];
    assert PhonePath[..1] == ["conversation"];
    assert PhonePath[..2] == ["conversation", "channel"];
    assert Path(data, ["conversation", "channel"]) == Path(Get(data, "conversation"), ["channel"])
        == Path(Get(Get(data, "conversation"), "channel"), []);
  }

  /** `contact.contact.id`: without optional chaining, so an upsert answer without
      a `contact` object throws (None). Where it succeeds it agrees with the
      optional chain `contact?.contact?.id`. */
  function ContactId(contact: Json): (r: Option<Json>)
    ensures r.Some? <==> !(contact.Undefined? || contact.Null?) && !(Get(contact, "contact").Undefined? || Get(contact, "contact").Null?)
    ensures r.Some? ==> r.value == Path(contact, ["contact", "id"])
  {
    assert Path(contact, ["contact", "id"]) == Path(Get(contact, "contact"), ["id"]) == Get(Get(contact, "contact"), "id");
    match Member(contact, "contact")
    case None => None
    case Some(c) => Member(c, "id")
  }

  /** What a webhook delivery produces: the status sent back and the calls made, in order. */
  datatype Outcome = Outcome(status: int, calls: seq<Call>)

  /** The `/webhook/podium` handler (index.js:91-119), given the result of the
      upsert; whatever happens it acknowledges with 200. */
  function PodiumRelay(payload: Json, upserted: Result<Json>): (o: Outcome)
    ensures o.status == 200
    // a delivery without phone or message makes no call
    ensures Normalize(payload).None? ==> o.calls == []
    // otherwise one upsert comes first, and at most one message is forwarded after it
    ensures Normalize(payload).Some? ==>
      var m := Normalize(payload).value;
      && 1 <= |o.calls| <= 2
      && o.calls[0] == UpsertContact(m.phone, m.name)
      && (|o.calls| == 2 <==> upserted.Ok? && ContactId(upserted.value).Some?)
      && (|o.calls| == 2 ==> o.calls[1] == SendMessageToGhl(ContactId(upserted.value).value, m.message))
  {
    match Normalize(payload)
    case None => Outcome(200, [])
    case Some(m) =>
      var upsert := UpsertContact(m.phone, m.name);
      if upserted.Err? then Outcome(200, [upsert])
      else match ContactId(upserted.value)
        case None => Outcome(200, [upsert])
        case Some(id) => Outcome(200, [upsert, SendMessageToGhl(id, m.message)])
  }

  /** `${getcontact.contact.firstName} ${getcontact.contact.lastName}`; an
      answer whose `contact` is undefined or null throws (None); once it is
      neither, reading its names cannot throw, and a missing name prints as
      "undefined". */
  function DisplayName(details: Json): (r: Option<string>)
    ensures r.Some? <==> !(details.Undefined? || details.Null?) && !(Get(details, "contact").Undefined? || Get(details, "contact").Null?)
    ensures r.Some? ==>
      r.value == ToStr(Path(details, ["contact", "firstName"])) + " " + ToStr(Path(details, ["contact", "lastName"]))
  {
    assert Path(details, ["contact", "firstName"]) == Path(Get(details, "contact"), ["firstName"]) == Get(Get(details, "contact"), "firstName");
    assert Path(details, ["contact", "lastName"]) == Path(Get(details, "contact"), ["lastName"]) == Get(Get(details, "contact"), "lastName");
    match Member(details, "contact")
    case None => None
    case Some(c) =>
      if c.Undefined? || c.Null? then None
      else Some(ToStr(Get(c, "firstName")) + " " + ToStr(Get(c, "lastName")))
  }

  /** The joined name splits back at its first space into the first name,
      when the first name has no space of its own. */
  lemma {:induction false} DisplayNameSplitsBack(first: string, last: string)
    requires forall i :: 0 <= i < |first| ==> first[i] != ' '
    ensures SplitHead(first + " " + last, " ") == first
  {
    var s := first + " " + last;
    var p := SplitHead(s, " ");
    assert OccursAt(s, " ", |first|) by {
      assert s[|first|..|first| + 1] == " ";
    }
    forall j | 0 <= j < |first|
      ensures !OccursAt(s, " ", j)
    {
      assert s[j..j + 1][0] == s[j] == first[j];
    }
    assert |p| <= |first| && p != s;
    assert OccursAt(s, " ", |p|);
    assert p == s[..|first|] == first;
  }

  /** The `/webhook/ghl` handler (index.js:166-181), given the results of the
      contact lookup and of the send. The body bodyParser.json delivers is an
      object or an array. */
  function GhlRelay(body: Json, details: Result<Json>, sent: Result<Json>): (o: Outcome)
    requires body.Obj? || body.Arr?
    // the contact lookup comes first
    ensures |o.calls| >= 1 && o.calls[0] == GetContactDetails(Get(body, "contactId"))
    // the send follows exactly when the lookup gave a contact to name
    ensures |o.calls| == 2 <==> details.Ok? && DisplayName(details.value).Some?
    ensures |o.calls| <= 2
    ensures |o.calls| == 2 ==>
      o.calls[1] == SendToPodium(Get(body, "phone"), Get(body, "message"), Str(DisplayName(details.value).value))
    // 200 only when both calls succeeded
    ensures o.status == (if |o.calls| == 2 && sent.Ok? then 200 else 500)
  {
    var lookup := GetContactDetails(Get(body, "contactId"));
    if details.Err? then Outcome(500, [lookup])
    else match DisplayName(details.value)
      case None => Outcome(500, [lookup])
      case Some(name) =>
        var calls := [lookup, SendToPodium(Get(body, "phone"), Get(body, "message"), Str(name))];
        Outcome(if sent.Ok? then 200 else 500, calls)
  }

  /** The server's handlers with the calls they have made so far. */
  class Server {
    /** Every downstream call, in order, over all deliveries. */
    var calls: seq<Call>

    constructor ()
      ensures calls == []
    {
      calls := [];
    }

    method PodiumWebhook(payload: Json, upserted: Result<Json>) returns (status: int)
      modifies this
      ensures var o := PodiumRelay(payload, upserted); status == o.status && calls == old(calls) + o.calls
    {
      status := 200;
      var data := Data(payload);
      var phone := Path(data, PhonePath);
      var message := Get(data, "body");
      var name := SenderName(data);
      if !Truthy(phone) || !Truthy(message) {
        return;
      }
      calls := calls + [UpsertContact(phone, name)];
      if upserted.Err? {
        return;
      }
      var id := ContactId(upserted.value);
      if id.None? {
        return;
      }
      calls := calls + [SendMessageToGhl(id.value, message)];
    }

    method GhlWebhook(body: Json, details: Result<Json>, sent: Result<Json>) returns (status: int)
      requires body.Obj? || body.Arr?
      modifies this
      ensures var o := GhlRelay(body, details, sent); status == o.status && calls == old(calls) + o.calls
    {
      var phone := Get(body, "phone");
      var message := Get(body, "message");
      var contactId := Get(body, "contactId");
      calls := calls + [GetContactDetails(contactId)];
      if details.Err? {
        return 500;
      }
      var name := DisplayName(details.value);
      if name.None? {
        return 500;
      }
      calls := calls + [SendToPodium(phone, message, Str(name.value))];
      if sent.Err? {
        return 500;
      }
      status := 200;
    }
  }
}
