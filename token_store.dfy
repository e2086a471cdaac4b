/**
 * tokenStore.js: the token file shared by both platform clients. It holds a
 * token record per platform under "ghl" and "podium" and the CRM location id
 * under "location_id". Every operation reads the whole file, changes one key
 * and writes the whole document back; a missing, empty or unparseable file
 * reads as `{}`, and a failing write is swallowed.
 */
module TokenStore {
  import opened Js

  /** A platform's token record: the flat object saved under "ghl" or "podium". */
  type Record = map<string, Json>

  /** `r[key]`: undefined when the record has no such field. */
  function Field(r: Record, key: string): Json
  {
    Get(Obj(r), key)
  }

  /** The parsed token file. None and Undefined stand for an absent key. */
  datatype Document = Document(ghl: Option<Record>, podium: Option<Record>, locationId: Json)

  /** `{}` */
  const EmptyDocument := Document(None, None, Undefined)

  /** The token file on disk: absent, empty, not parseable as JSON, or holding a document. */
  datatype FileState = Missing | Empty | Corrupt | Stored(doc: Document)

  /** A record as JSON gives it back. */
  function JsonRecord(r: Record): Record
  {
    Jsonify(Obj(r)).fields
  }

  function JsonOption(o: Option<Record>): Option<Record>
  {
    if o.Some? then Some(JsonRecord(o.value)) else None
  }

  /** The document that JSON.parse gives back of what `JSON.stringify(d)` wrote. */
  function JsonDocument(d: Document): Document
  {
    Document(JsonOption(d.ghl), JsonOption(d.podium), Jsonify(d.locationId))
  }

  predicate IsJsonRecord(r: Record)
  {
    forall k :: k in r ==> IsJson(r[k])
  }

  /** A document JSON.parse can produce. */
  predicate IsJsonDocument(d: Document)
  {
    && (d.ghl.Some? ==> IsJsonRecord(d.ghl.value))
    && (d.podium.Some? ==> IsJsonRecord(d.podium.value))
    && (d.locationId.Undefined? || IsJson(d.locationId))
  }

  predicate IsJsonFile(f: FileState)
  {
    f.Stored? ==> IsJsonDocument(f.doc)
  }

  lemma {:induction false} JsonRecordIsJson(r: Record)
    ensures IsJsonRecord(JsonRecord(r))
  {
    forall k | k in r && !r[k].Undefined? {
      JsonifyIsJson(r[k]);
    }
  }

  lemma JsonDocumentIsJson(d: Document)
    ensures IsJsonDocument(JsonDocument(d))
  {
    if d.ghl.Some? { JsonRecordIsJson(d.ghl.value); }
    if d.podium.Some? { JsonRecordIsJson(d.podium.value); }
    if !d.locationId.Undefined? { JsonifyIsJson(d.locationId); }
  }

  lemma {:induction false} JsonRecordFixpoint(r: Record)
    requires IsJsonRecord(r)
    ensures JsonRecord(r) == r
  {
    JsonIsFixpoint(Obj(r));
  }

  /** `_read` (tokenStore.js:8-17). */
  function Read(f: FileState): (d: Document)
    ensures f.Stored? ==> d == f.doc
    ensures !f.Stored? ==> d == EmptyDocument
    ensures IsJsonFile(f) ==> IsJsonDocument(d)
  {
    if f.Stored? then f.doc else EmptyDocument
  }

  /** `_write` (tokenStore.js:19-25): a failed write is swallowed and the file stays as it was. */
  function WriteFile(f: FileState, writable: bool, d: Document): (g: FileState)
    ensures !writable ==> g == f
    ensures writable ==> g.Stored? && Read(g) == JsonDocument(d) && IsJsonFile(g)
  {
    JsonDocumentIsJson(d);
    if writable then Stored(JsonDocument(d)) else f
  }

  /** `{ ...(x || {}), ...t }`: the fields of t win over the old ones. */
  function Merge(x: Option<Record>, t: Record): (r: Record)
    ensures forall k :: k in r <==> k in t || (x.Some? && k in x.value)
    ensures forall k :: k in t ==> r[k] == t[k]
    ensures forall k :: k !in t && x.Some? && k in x.value ==> r[k] == x.value[k]
  {
    GetOr(x, map[]) + t
  }

  /** The file after `saveTokens(t)` (tokenStore.js:28-32). */
  function AfterSaveTokens(f: FileState, writable: bool, t: Record): (g: FileState)
    ensures !writable ==> g == f
    ensures writable ==> g.Stored? && g.doc.ghl.Some?
  {
    var all := Read(f);
    WriteFile(f, writable, all.(ghl := Some(Merge(all.ghl, t))))
  }

  /** The file after `saveLocationId(x)` (tokenStore.js:39-43). */
  function AfterSaveLocationId(f: FileState, writable: bool, x: Json): (g: FileState)
    ensures !writable ==> g == f
    ensures writable ==> g.Stored?
  {
    var all := Read(f);
    WriteFile(f, writable, all.(locationId := x))
  }

  /** The file after `savePodiumTokens(t)` (tokenStore.js:51-55). */
  function AfterSavePodiumTokens(f: FileState, writable: bool, t: Record): (g: FileState)
    ensures !writable ==> g == f
    ensures writable ==> g.Stored? && g.doc.podium.Some?
  {
    var all := Read(f);
    WriteFile(f, writable, all.(podium := Some(Merge(all.podium, t))))
  }

  /** `loadTokens()` (tokenStore.js:34-37). */
  function LoadTokens(f: FileState): (r: Record)
    ensures !f.Stored? ==> r == map[]
    ensures IsJsonFile(f) ==> IsJsonRecord(r)
  {
    GetOr(Read(f).ghl, map[])
  }

  /** `getLocationId()` (tokenStore.js:45-48): the stored id when truthy, else null. */
  function GetLocationId(f: FileState): (r: Json)
    ensures !f.Stored? ==> r == Null
    ensures Truthy(r) || r == Null
  {
    Or(Read(f).locationId, Null)
  }

  /** `loadPodiumTokens()` (tokenStore.js:57-60). */
  function LoadPodiumTokens(f: FileState): (r: Record)
    ensures !f.Stored? ==> r == map[]
    ensures IsJsonFile(f) ==> IsJsonRecord(r)
  {
    GetOr(Read(f).podium, map[])
  }

  /** `getAllTokens()` (tokenStore.js:62-64). */
  function GetAllTokens(f: FileState): (d: Document)
    ensures !f.Stored? ==> d == EmptyDocument
    ensures IsJsonFile(f) ==> IsJsonDocument(d)
  {
    Read(f)
  }

  /** Shallow merge followed by a JSON round trip: a field of t that is
      undefined is dropped, every other field of t is stored with t's value,
      and the old fields t does not mention are kept as they were. */
  lemma {:induction false} MergeThenStore(x: Record, t: Record)
    requires IsJsonRecord(x)
    ensures var r := JsonRecord(x + t);
      && (forall k :: k in r <==> (k in t && !t[k].Undefined?) || (k !in t && k in x))
      && (forall k :: k in t && !t[k].Undefined? ==> r[k] == Jsonify(t[k]))
      && (forall k :: k !in t && k in x ==> r[k] == x[k])
  {
    forall k | k in x {
      JsonIsFixpoint(x[k]);
    }
  }

  /** loadTokens after saveTokens(t) gives t merged over the old record. */
  lemma {:induction false} LoadAfterSaveTokens(f: FileState, t: Record)
    requires IsJsonFile(f)
    ensures var r := LoadTokens(AfterSaveTokens(f, true, t));
            var x := LoadTokens(f);
      && (forall k :: k in r <==> (k in t && !t[k].Undefined?) || (k !in t && k in x))
      && (forall k :: k in t && !t[k].Undefined? ==> r[k] == Jsonify(t[k]))
      && (forall k :: k !in t && k in x ==> r[k] == x[k])
  {
    MergeThenStore(LoadTokens(f), t);
  }

  /** A token record with no undefined field reads back exactly, when the file had no ghl record before. */
  lemma {:induction false} LoadAfterFreshSaveTokens(f: FileState, t: Record)
    requires IsJsonFile(f) && IsJsonRecord(t) && LoadTokens(f) == map[]
    ensures LoadTokens(AfterSaveTokens(f, true, t)) == t
  {
    assert map[] + t == t;
    JsonRecordFixpoint(t);
  }

  /** saveTokens touches the ghl record only. */
  lemma {:induction false} SaveTokensFrame(f: FileState, writable: bool, t: Record)
    requires IsJsonFile(f)
    ensures var g := AfterSaveTokens(f, writable, t);
      && Read(g).podium == Read(f).podium && Read(g).locationId == Read(f).locationId
      && LoadPodiumTokens(g) == LoadPodiumTokens(f) && GetLocationId(g) == GetLocationId(f)
  {
    if writable && f.Stored? {
      if f.doc.podium.Some? { JsonRecordFixpoint(f.doc.podium.value); }
      if !f.doc.locationId.Undefined? { JsonIsFixpoint(f.doc.locationId); }
    }
  }

  /** savePodiumTokens merges into the podium record in the same way. */
  lemma {:induction false} LoadAfterSavePodiumTokens(f: FileState, t: Record)
    requires IsJsonFile(f)
    ensures var r := LoadPodiumTokens(AfterSavePodiumTokens(f, true, t));
            var x := LoadPodiumTokens(f);
      && (forall k :: k in r <==> (k in t && !t[k].Undefined?) || (k !in t && k in x))
      && (forall k :: k in t && !t[k].Undefined? ==> r[k] == Jsonify(t[k]))
      && (forall k :: k !in t && k in x ==> r[k] == x[k])
  {
    MergeThenStore(LoadPodiumTokens(f), t);
  }

  /** savePodiumTokens touches the podium record only. */
  lemma {:induction false} SavePodiumTokensFrame(f: FileState, writable: bool, t: Record)
    requires IsJsonFile(f)
    ensures var g := AfterSavePodiumTokens(f, writable, t);
      && Read(g).ghl == Read(f).ghl && Read(g).locationId == Read(f).locationId
      && LoadTokens(g) == LoadTokens(f) && GetLocationId(g) == GetLocationId(f)
  {
    if writable && f.Stored? {
      if f.doc.ghl.Some? { JsonRecordFixpoint(f.doc.ghl.value); }
      if !f.doc.locationId.Undefined? { JsonIsFixpoint(f.doc.locationId); }
    }
  }

  lemma {:induction false} JsonRecordIdempotent(r: Record)
    ensures JsonRecord(JsonRecord(r)) == JsonRecord(r)
  {
    JsonRecordIsJson(r);
    JsonRecordFixpoint(JsonRecord(r));
  }

  /** Merging the same tokens a second time changes nothing. */
  lemma {:induction false} SaveTokensIdempotent(f: FileState, writable: bool, t: Record)
    ensures AfterSaveTokens(AfterSaveTokens(f, writable, t), writable, t) == AfterSaveTokens(f, writable, t)
  {
    if writable {
      var all := Read(f);
      var x := GetOr(all.ghl, map[]);
      var once := JsonRecord(x + t);
      var twice := JsonRecord(once + t);
      forall k | k in x && k !in t && !x[k].Undefined? {
        JsonifyIdempotent(x[k]);
      }
      assert twice == once;
      JsonRecordIdempotent(GetOr(all.podium, map[]));
      JsonifyIdempotent(all.locationId);
    }
  }

  /** getLocationId after saveLocationId(x) gives x (as stored) when x is truthy and null otherwise; both token records are untouched. */
  lemma {:induction false} LocationIdAfterSave(f: FileState, x: Json)
    requires IsJsonFile(f)
    ensures var g := AfterSaveLocationId(f, true, x);
      && GetLocationId(g) == (if Truthy(x) then Jsonify(x) else Null)
      && Read(g).ghl == Read(f).ghl && Read(g).podium == Read(f).podium
      && LoadTokens(g) == LoadTokens(f) && LoadPodiumTokens(g) == LoadPodiumTokens(f)
  {
    if f.Stored? {
      if f.doc.ghl.Some? { JsonRecordFixpoint(f.doc.ghl.value); }
      if f.doc.podium.Some? { JsonRecordFixpoint(f.doc.podium.value); }
    }
  }

  /** A token-store operation performed by a platform client. */
  datatype Op = SaveTokensOp(tokens: Record) | SaveLocationIdOp(locationId: Json)

  /** The file after performing ops in order. */
  function Perform(f: FileState, writable: bool, ops: seq<Op>): (g: FileState)
    ensures !writable ==> g == f
    decreases |ops|
  {
    if ops == [] then f
    else
      var next := match ops[0]
        case SaveTokensOp(t) => AfterSaveTokens(f, writable, t)
        case SaveLocationIdOp(x) => AfterSaveLocationId(f, writable, x);
      Perform(next, writable, ops[1..])
  }

  lemma PerformSaveTokens(f: FileState, writable: bool, t: Record)
    ensures Perform(f, writable, [SaveTokensOp(t)]) == AfterSaveTokens(f, writable, t)
  {
    assert [SaveTokensOp(t)][1..] == [];
  }

  lemma PerformSaveTokensAndLocationId(f: FileState, writable: bool, t: Record, x: Json)
    ensures Perform(f, writable, [SaveTokensOp(t), SaveLocationIdOp(x)])
         == AfterSaveLocationId(AfterSaveTokens(f, writable, t), writable, x)
  {
    var ops := [SaveTokensOp(t), SaveLocationIdOp(x)];
    var g := AfterSaveTokens(f, writable, t);
    assert ops[1..] == [SaveLocationIdOp(x)];
    assert Perform(f, writable, ops) == Perform(g, writable, [SaveLocationIdOp(x)]);
    assert [SaveLocationIdOp(x)][1..] == [];
    assert Perform(g, writable, [SaveLocationIdOp(x)]) == AfterSaveLocationId(g, writable, x);
  }

  /** The token file as an object whose content the operations replace. */
  class TokenFile {
    var state: FileState
    /** Whether the file system currently accepts writes. */
    var writable: bool

    ghost predicate Valid()
      reads this
    {
      IsJsonFile(state)
    }

    constructor (state: FileState, writable: bool)
      requires IsJsonFile(state)
      ensures Valid() && this.state == state && this.writable == writable
    {
      this.state := state;
      this.writable := writable;
    }

    /** `_write(all)` */
    method Write(all: Document)
      requires Valid()
      modifies this`state
      ensures Valid() && state == WriteFile(old(state), writable, all)
    {
      if writable {
        JsonDocumentIsJson(all);
        state := Stored(JsonDocument(all));
      }
    }

    /** `saveTokens(tokens)` */
    method SaveTokens(tokens: Record)
      requires Valid()
      modifies this`state
      ensures Valid() && state == AfterSaveTokens(old(state), writable, tokens)
    {
      var all := Read(state);
      all := all.(ghl := Some(Merge(all.ghl, tokens)));
      Write(all);
    }

    /** `saveLocationId(locationId)` */
    method SaveLocationId(locationId: Json)
      requires Valid()
      modifies this`state
      ensures Valid() && state == AfterSaveLocationId(old(state), writable, locationId)
    {
      var all := Read(state);
      all := all.(locationId := locationId);
      Write(all);
    }

    /** `savePodiumTokens(tokens)` */
    method SavePodiumTokens(tokens: Record)
      requires Valid()
      modifies this`state
      ensures Valid() && state == AfterSavePodiumTokens(old(state), writable, tokens)
    {
      var all := Read(state);
      all := all.(podium := Some(Merge(all.podium, tokens)));
      Write(all);
    }
  }
}
