/**
 * JavaScript values as the relay sees them: the JSON data it receives and
 * stores, truthiness, the `||` and `?.` operators, property reads that throw
 * on undefined and null, conversion to a string in a template literal,
 * `split`, and what a JSON.stringify / JSON.parse round trip keeps of a value.
 */
module Js {

  datatype Option<T> = None | Some(value: T)

  function GetOr<T>(o: Option<T>, default: T): T
  {
    if o.Some? then o.value else default
  }

  /** A JavaScript value that can occur in the relay's data. Numbers are integers. */
  datatype Json =
    | Undefined
    | Null
    | Bool(b: bool)
    | Num(n: int)
    | Str(s: string)
    | Arr(items: seq<Json>)
    | Obj(fields: map<string, Json>)

  /** undefined, null, false, 0 and "" are falsy; everything else, every object and array included, is truthy. */
  predicate Truthy(v: Json)
  {
    match v
    case Undefined => false
    case Null => false
    case Bool(b) => b
    case Num(n) => n != 0
    case Str(s) => s != ""
    case _ => true
  }

  /** `a || b` */
  function Or(a: Json, b: Json): Json
  {
    if Truthy(a) then a else b
  }

  /** `v?.key`, and also `v.key` when v is neither undefined nor null:
      only objects carry the fields the relay reads. */
  function Get(v: Json, key: string): (r: Json)
    ensures r != Undefined ==> v.Obj? && key in v.fields && r == v.fields[key]
  {
    if v.Obj? && key in v.fields then v.fields[key] else Undefined
  }

  /** `v.key` without optional chaining: None stands for the TypeError thrown on undefined and null. */
  function Member(v: Json, key: string): Option<Json>
  {
    if v.Undefined? || v.Null? then None else Some(Get(v, key))
  }

  /** `v?.k1?.k2 ... ?.kn` */
  function Path(v: Json, keys: seq<string>): Json
    decreases |keys|
  {
    if keys == [] then v else Path(Get(v, keys[0]), keys[1..])
  }

  lemma {:induction false} PathFromUndefined(keys: seq<string>)
    ensures Path(Undefined, keys) == Undefined
    decreases |keys|
  {
    if keys != [] {
      PathFromUndefined(keys[1..]);
    }
  }

  /** An optional chain yields something only when every link before the
      last is an object that has the next key. */
  lemma {:induction false} PathDefinedOnlyThroughObjects(v: Json, keys: seq<string>, i: nat)
    requires i < |keys| && Path(v, keys) != Undefined
    ensures Path(v, keys[..i]).Obj? && keys[i] in Path(v, keys[..i]).fields
    decreases |keys|
  {
    if Get(v, keys[0]) == Undefined {
      PathFromUndefined(keys[1..]);
    }
    if i > 0 {
      PathDefinedOnlyThroughObjects(Get(v, keys[0]), keys[1..], i - 1);
      assert keys[..i][1..] == keys[1..][..i - 1];
    }
  }

  /** `String(v)`, which is also what `${v}` puts into a template literal. */
  function ToStr(v: Json): string
    decreases v, 1, 0
  {
    match v
    case Undefined => "undefined"
    case Null => "null"
    case Bool(b) => if b then "true" else "false"
    case Num(n) => Decimal(n)
    case Str(s) => s
    case Arr(items) => JoinFrom(items, 0)
    case Obj(_) => "[object Object]"
  }

  /** `items.slice(i).join(",")`: undefined and null elements print as "". */
  function JoinFrom(items: seq<Json>, i: nat): string
    requires i <= |items|
    decreases Arr(items), 0, |items| - i
  {
    if i == |items| then ""
    else
      var head := if items[i].Undefined? || items[i].Null? then "" else ToStr(items[i]);
      if i + 1 == |items| then head else head + "," + JoinFrom(items, i + 1)
  }

  /** The decimal numeral JavaScript prints for an integer. */
  function Decimal(n: int): string
  {
    if n < 0 then "-" + Digits(-n) else Digits(n)
  }

  function Digits(n: nat): string
    decreases n
  {
    if n < 10 then ["0123456789"[n]] else Digits(n / 10) + ["0123456789"[n % 10]]
  }

  /** What `JSON.parse(JSON.stringify(v))` gives back. Object members that
      are undefined are dropped and undefined array elements become null;
      undefined itself stays undefined, since a field holding it is not
      written at all. */
  function Jsonify(v: Json): (r: Json)
    ensures r.Undefined? <==> v.Undefined?
    ensures Truthy(r) <==> Truthy(v)
  {
    match v
    case Arr(items) =>
      Arr(seq(|items|, i requires 0 <= i < |items| => if items[i].Undefined? then Null else Jsonify(items[i])))
    case Obj(m) => Obj(map k | k in m && !m[k].Undefined? :: Jsonify(m[k]))
    case _ => v
  }

  /** A value JSON can represent: no undefined anywhere in it. */
  predicate IsJson(v: Json)
  {
    match v
    case Undefined => false
    case Arr(items) => forall i :: 0 <= i < |items| ==> IsJson(items[i])
    case Obj(m) => forall k :: k in m ==> IsJson(m[k])
    case _ => true
  }

  lemma {:induction false} JsonifyIsJson(v: Json)
    requires !v.Undefined?
    ensures IsJson(Jsonify(v))
  {
    match v
    case Arr(items) =>
      forall i | 0 <= i < |items| && !items[i].Undefined? {
        JsonifyIsJson(items[i]);
      }
    case Obj(m) =>
      forall k | k in m && !m[k].Undefined? {
        JsonifyIsJson(m[k]);
      }
    case _ =>
  }

  /** A value that came out of JSON.parse survives another round trip unchanged. */
  lemma {:induction false} JsonIsFixpoint(v: Json)
    requires IsJson(v)
    ensures Jsonify(v) == v
  {
    match v
    case Arr(items) =>
      forall i | 0 <= i < |items| {
        JsonIsFixpoint(items[i]);
      }
    case Obj(m) =>
      forall k | k in m {
        JsonIsFixpoint(m[k]);
      }
      assert Jsonify(v).fields == m;
    case _ =>
  }

  lemma {:induction false} JsonifyIdempotent(v: Json)
    ensures Jsonify(Jsonify(v)) == Jsonify(v)
  {
    if !v.Undefined? {
      JsonifyIsJson(v);
      JsonIsFixpoint(Jsonify(v));
    }
  }

  /** There is an occurrence of `pat` in `s` starting at index i. */
  predicate OccursAt(s: string, pat: string, i: nat)
  {
    i + |pat| <= |s| && s[i..i + |pat|] == pat
  }

  /** `s.indexOf(pat, from)`, None for -1. */
  function IndexFrom(s: string, pat: string, from: nat): (r: Option<nat>)
    ensures r.Some? ==> from <= r.value && OccursAt(s, pat, r.value)
    ensures forall j :: from <= j && (r.None? || j < r.value) ==> !OccursAt(s, pat, j)
    decreases |s| - from
  {
    if from + |pat| > |s| then None
    else if s[from..from + |pat|] == pat then Some(from)
    else IndexFrom(s, pat, from + 1)
  }

  /** `s.split(sep)[0]` for a non-empty separator: all of s before the first
      occurrence of sep, or s itself when sep does not occur. */
  function SplitHead(s: string, sep: string): (p: string)
    requires sep != ""
    ensures p <= s
    ensures forall j :: 0 <= j < |p| ==> !OccursAt(s, sep, j)
    ensures p == s || OccursAt(s, sep, |p|)
  {
    match IndexFrom(s, sep, 0)
    case Some(i) => s[..i]
    case None => s
  }
}
