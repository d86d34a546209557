/** JavaScript values as the logger sees them: a JSON-like datatype that keeps
    `undefined` and symbol-keyed properties apart, objects as ordered property
    lists enumerated in insertion order (the order JavaScript gives keys that
    are not array indices; see README for what that leaves out), truthiness, the
    String() and Number() coercions the source relies on through template
    literals, `||` and `>`, and a mutable object for the records the formatters
    update in place. */
module JsValues {
  import opened JsText

  datatype Option<T> = None | Some(value: T)

  /** A call into a library that either returns a value or throws. */
  datatype Thrown<T> = Returned(value: T) | Threw

  /** An optional property of a configuration object: missing, present with the
      value `undefined`, or present with a value. Object spread copies the second
      kind as well, which is why it is kept apart from the first. */
  datatype Field<T> = Absent | Undef | Present(value: T)

  /** `{...base, ...over}` for one property: a property the caller wrote wins,
      even when its value is `undefined`. */
  function Override<T>(base: Field<T>, over: Field<T>): (r: Field<T>)
    ensures over.Absent? ==> r == base
    ensures !over.Absent? ==> r == over
  {
    if over.Absent? then base else over
  }

  /** A JavaScript default parameter: `undefined` (passed or missing) takes the default. */
  function WithDefault<T>(f: Field<T>, default: T): (r: T)
    ensures f.Present? ==> r == f.value
    ensures !f.Present? ==> r == default
  {
    if f.Present? then f.value else default
  }

  /** A string-or-undefined option inside a template literal: `${x}` prints
      "undefined" for a missing or undefined value. */
  function TemplateText(f: Field<string>): (r: string)
    ensures f.Present? ==> r == f.value
    ensures !f.Present? ==> r == "undefined"
  {
    if f.Present? then f.value else "undefined"
  }

  /** A boolean option is truthy only when it holds `true`. */
  predicate IsOn(f: Field<bool>) {
    f == Present(true)
  }

  datatype Key = Prop(name: string) | Symbol(description: string)

  /** Numbers are integers here; see README for what that leaves out. */
  datatype Json =
    | Undefined
    | Null
    | Bool(b: bool)
    | Num(n: int)
    | Str(s: string)
    | Arr(items: seq<Json>)
    | Obj(props: seq<(Key, Json)>)

  type Props = seq<(Key, Json)>

  /** ECMAScript ToBoolean. */
  predicate Truthy(v: Json) {
    match v
    case Undefined => false
    case Null => false
    case Bool(b) => b
    case Num(n) => n != 0
    case Str(s) => s != ""
    case Arr(_) => true
    case Obj(_) => true
  }

  /** `a || b` */
  function Or(a: Json, b: Json): (r: Json)
    ensures Truthy(a) ==> r == a
    ensures !Truthy(a) ==> r == b
  {
    if Truthy(a) then a else b
  }

  /** A string or `undefined`, as JSON.stringify returns. */
  function JsOf(o: Option<string>): (v: Json)
    ensures o.Some? <==> v.Str?
    ensures o.None? <==> v == Undefined
    ensures o.Some? ==> v.s == o.value
  {
    if o.Some? then Str(o.value) else Undefined
  }

  function IntToDecimal(n: int): string {
    if n < 0 then "-" + NatToDecimal(-n) else NatToDecimal(n)
  }

  /** ECMAScript ToString, which a template literal `${v}` applies to `v`. Numbers
      print as plain decimal integers, which is what JavaScript prints for integers
      of magnitude below 2^53; see README for larger ones. */
  function ToJsString(v: Json): string
    decreases v, 1
  {
    match v
    case Undefined => "undefined"
    case Null => "null"
    case Bool(b) => if b then "true" else "false"
    case Num(n) => IntToDecimal(n)
    case Str(s) => s
    case Arr(items) => JoinItems(v, items)
    case Obj(_) => "[object Object]"
  }

  /** Array.prototype.join(","), where null and undefined elements print as "". */
  function JoinItems(ghost parent: Json, items: seq<Json>): string
    requires forall i :: 0 <= i < |items| ==> items[i] < parent
    decreases parent, 0, |items|
  {
    if items == [] then ""
    else
      var head := if items[0].Null? || items[0].Undefined? then "" else ToJsString(items[0]);
      if |items| == 1 then head else head + "," + JoinItems(parent, items[1..])
  }

  /** A template literal applied to what JSON.stringify returned. */
  function OptText(o: Option<string>): (r: string)
    ensures o.Some? ==> r == o.value
    ensures o.None? ==> r == "undefined"
  {
    ToJsString(JsOf(o))
  }

  /** Number(s) for the strings modelled here: "" is 0, a run of decimal digits is
      its value, everything else is NaN (None). */
  function StringToNumber(s: string): (r: Option<int>)
    ensures AllDigits(s) ==> r == Some(DigitsValue(s))
  {
    if AllDigits(s) then Some(DigitsValue(s)) else None
  }

  /** ECMAScript ToNumber; None stands for NaN. */
  function ToNumber(v: Json): Option<int> {
    match v
    case Undefined => None
    case Null => Some(0)
    case Bool(b) => Some(if b then 1 else 0)
    case Num(n) => Some(n)
    case Str(s) => StringToNumber(s)
    case Arr(_) => StringToNumber(ToJsString(v))
    case Obj(_) => StringToNumber(ToJsString(v))
  }

  /** `v > 0` */
  predicate GreaterThanZero(v: Json) {
    var n := ToNumber(v);
    n.Some? && n.value > 0
  }

  // ----- objects as ordered property lists -----

  predicate Has(p: Props, k: Key) {
    p != [] && (p[0].0 == k || Has(p[1..], k))
  }

  /** Property read: the value of `k`, or `undefined` when there is no such property. */
  function Lookup(p: Props, k: Key): (v: Json)
    ensures !Has(p, k) ==> v == Undefined
  {
    if p == [] then Undefined
    else if p[0].0 == k then p[0].1
    else Lookup(p[1..], k)
  }

  function KeysOf(p: Props): (ks: seq<Key>)
    ensures |ks| == |p|
    ensures forall i :: 0 <= i < |p| ==> ks[i] == p[i].0
  {
    seq(|p|, i requires 0 <= i < |p| => p[i].0)
  }

  /** Overwrites the value of every occurrence of `k`, keeping positions. */
  function Replace(p: Props, k: Key, v: Json): (r: Props)
    ensures |r| == |p|
    ensures forall i :: 0 <= i < |p| ==> r[i].0 == p[i].0
    ensures forall i :: 0 <= i < |p| ==> r[i].1 == (if p[i].0 == k then v else p[i].1)
  {
    if p == [] then [] else [(p[0].0, if p[0].0 == k then v else p[0].1)] + Replace(p[1..], k, v)
  }

  lemma {:induction false} ReplaceFacts(p: Props, k: Key, v: Json, j: Key)
    ensures Has(Replace(p, k, v), j) == Has(p, j)
    ensures Lookup(Replace(p, k, v), j) == if j == k && Has(p, k) then v else Lookup(p, j)
  {
    if p != [] {
      assert Replace(p, k, v)[1..] == Replace(p[1..], k, v);
      ReplaceFacts(p[1..], k, v, j);
    }
  }

  lemma {:induction false} AppendFacts(p: Props, k: Key, v: Json, j: Key)
    requires !Has(p, k)
    ensures Has(p + [(k, v)], j) == (Has(p, j) || j == k)
    ensures Lookup(p + [(k, v)], j) == if j == k then v else Lookup(p, j)
  {
    if p != [] {
      assert (p + [(k, v)])[1..] == p[1..] + [(k, v)];
      AppendFacts(p[1..], k, v, j);
    }
  }

  /** Property write `o[k] = v`: an existing property keeps its place, a new one goes last. */
  function Put(p: Props, k: Key, v: Json): (r: Props)
    ensures Has(r, k) && Lookup(r, k) == v
    ensures forall j :: j != k ==> Has(r, j) == Has(p, j)
    ensures forall j :: j != k ==> Lookup(r, j) == Lookup(p, j)
  {
    if Has(p, k) then
      var r := Replace(p, k, v);
      assert forall j :: Has(r, j) == Has(p, j) && Lookup(r, j) == (if j == k then v else Lookup(p, j)) by {
        forall j ensures Has(r, j) == Has(p, j) && Lookup(r, j) == (if j == k then v else Lookup(p, j)) {
          ReplaceFacts(p, k, v, j);
        }
      }
      r
    else
      var r := p + [(k, v)];
      assert forall j :: Has(r, j) == (Has(p, j) || j == k) && Lookup(r, j) == (if j == k then v else Lookup(p, j)) by {
        forall j ensures Has(r, j) == (Has(p, j) || j == k) && Lookup(r, j) == (if j == k then v else Lookup(p, j)) {
          AppendFacts(p, k, v, j);
        }
      }
      r
  }

  /** A written property keeps its place; a new one is enumerated last. */
  lemma PutKeys(p: Props, k: Key, v: Json)
    ensures KeysOf(Put(p, k, v)) == KeysOf(p) + (if Has(p, k) then [] else [k])
  {
    if Has(p, k) {
      assert KeysOf(p) + [] == KeysOf(p);
    } else {
      assert Put(p, k, v) == p + [(k, v)];
      assert KeysOf(p + [(k, v)]) == KeysOf(p) + [k];
    }
  }

  lemma {:induction false} ReplaceReplace(p: Props, k: Key, a: Json, b: Json)
    ensures Replace(Replace(p, k, a), k, b) == Replace(p, k, b)
  {
    if p != [] {
      ReplaceReplace(p[1..], k, a, b);
    }
  }

  lemma {:induction false} ReplaceFresh(p: Props, k: Key, a: Json, b: Json)
    requires !Has(p, k)
    ensures Replace(p + [(k, a)], k, b) == p + [(k, b)]
  {
    if p == [] {
      assert Replace([(k, a)], k, b) == [(k, b)] + Replace([], k, b);
    } else {
      assert (p + [(k, a)])[1..] == p[1..] + [(k, a)];
      ReplaceFresh(p[1..], k, a, b);
    }
  }

  /** Writing the same property twice leaves what writing it once with the second value leaves. */
  lemma PutPut(p: Props, k: Key, a: Json, b: Json)
    ensures Put(Put(p, k, a), k, b) == Put(p, k, b)
  {
    if Has(p, k) {
      ReplaceReplace(p, k, a, b);
    } else {
      ReplaceFresh(p, k, a, b);
    }
  }

  /** `delete o[k]`: every other property keeps its value. */
  function Remove(p: Props, k: Key): (r: Props)
    ensures !Has(r, k)
    ensures forall j :: j != k ==> Has(r, j) == Has(p, j)
    ensures forall j :: j != k ==> Lookup(r, j) == Lookup(p, j)
    ensures |r| <= |p|
  {
    if p == [] then []
    else if p[0].0 == k then Remove(p[1..], k)
    else
      var r := [p[0]] + Remove(p[1..], k);
      assert r[1..] == Remove(p[1..], k);
      r
  }

  lemma {:induction false} RemoveReplace(p: Props, k: Key, v: Json)
    ensures Remove(Replace(p, k, v), k) == Remove(p, k)
  {
    if p != [] {
      assert Replace(p, k, v)[1..] == Replace(p[1..], k, v);
      RemoveReplace(p[1..], k, v);
    }
  }

  lemma {:induction false} RemoveAppend(p: Props, k: Key, v: Json)
    ensures Remove(p + [(k, v)], k) == Remove(p, k)
  {
    if p != [] {
      assert (p + [(k, v)])[1..] == p[1..] + [(k, v)];
      RemoveAppend(p[1..], k, v);
    } else {
      assert [(k, v)][1..] == [];
    }
  }

  /** Deleting a property undoes any earlier write to it. */
  lemma RemovePut(p: Props, k: Key, v: Json)
    ensures Remove(Put(p, k, v), k) == Remove(p, k)
  {
    if Has(p, k) { RemoveReplace(p, k, v); } else { RemoveAppend(p, k, v); }
  }

  lemma {:induction false} HasWitness(p: Props, k: Key) returns (i: nat)
    requires Has(p, k)
    ensures i < |p| && p[i].0 == k
  {
    if p[0].0 == k {
      i := 0;
    } else {
      var j := HasWitness(p[1..], k);
      i := j + 1;
    }
  }

  /** A property list none of whose keys is `k` has no property `k`. */
  lemma {:induction false} NotHasAt(p: Props, k: Key)
    requires forall i :: 0 <= i < |p| ==> p[i].0 != k
    ensures !Has(p, k)
  {
    if p != [] {
      NotHasAt(p[1..], k);
    }
  }

  /** Reading a key gives the value of its first occurrence. */
  lemma {:induction false} LookupAt(p: Props, i: nat)
    requires i < |p|
    requires forall j :: 0 <= j < i ==> p[j].0 != p[i].0
    ensures Has(p, p[i].0) && Lookup(p, p[i].0) == p[i].1
  {
    if i > 0 {
      assert p[1..][i - 1] == p[i];
      LookupAt(p[1..], i - 1);
    }
  }

  /** Reading a key of two property lists joined: the first list's value when it
      has the key, else the second's. */
  lemma {:induction false} LookupConcat(a: Props, b: Props, k: Key)
    ensures Has(a + b, k) == (Has(a, k) || Has(b, k))
    ensures Lookup(a + b, k) == if Has(a, k) then Lookup(a, k) else Lookup(b, k)
  {
    if a == [] {
      assert a + b == b;
    } else {
      assert (a + b)[1..] == a[1..] + b;
      LookupConcat(a[1..], b, k);
    }
  }

  /** Some own property is string-keyed (what a `for…in` over a plain object visits). */
  predicate HasStringKey(p: Props) {
    exists i :: 0 <= i < |p| && p[i].0.Prop?
  }

  /** The value `v.length` reads. */
  function LengthOf(v: Json): (r: Json)
    ensures v.Str? ==> r == Num(|v.s|)
    ensures v.Arr? ==> r == Num(|v.items|)
    ensures v.Obj? ==> r == Lookup(v.props, Prop("length"))
  {
    match v
    case Str(s) => Num(|s|)
    case Arr(items) => Num(|items|)
    case Obj(p) => Lookup(p, Prop("length"))
    case _ => Undefined
  }

  /** `{...v}`: the own enumerable properties of `v` as a fresh object. */
  function SpreadOf(v: Json): (p: Props)
    ensures v.Obj? ==> p == v.props
    ensures v.Str? ==> |p| == |v.s|
    ensures v.Arr? ==> |p| == |v.items|
    ensures !(v.Obj? || v.Str? || v.Arr?) ==> p == []
  {
    match v
    case Obj(p) => p
    case Str(s) => seq(|s|, i requires 0 <= i < |s| => (Prop(NatToDecimal(i)), Str([s[i]])))
    case Arr(items) => seq(|items|, i requires 0 <= i < |items| => (Prop(NatToDecimal(i)), items[i]))
    case _ => []
  }

  /** A JavaScript object whose properties are updated in place. */
  class JsObject {
    var props: Props

    constructor (p: Props)
      ensures props == p
    {
      props := p;
    }

    function Get(k: Key): Json
      reads this
    {
      Lookup(props, k)
    }

    method Set(k: Key, v: Json)
      modifies this
      ensures props == Put(old(props), k, v)
    {
      props := Put(props, k, v);
    }

    method Delete(k: Key)
      modifies this
      ensures props == Remove(old(props), k)
    {
      props := Remove(props, k);
    }
  }
}
