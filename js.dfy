/** JavaScript values as the card sees them: configuration objects parsed from
    YAML, template results pushed by the host, and the coercions (truthiness,
    String(), Number(), property access, object spread, `delete`) that the
    card's code applies to them. */
module Js {

  datatype Option<T> = None | Some(value: T)

  /** The outcome of an expression that may raise a JavaScript TypeError
      (a property read on undefined, a call of a missing method). */
  datatype Outcome<T> = Ok(value: T) | TypeError

  /** A JavaScript number: NaN or a finite value. */
  datatype Num = NaN | Fin(r: real)

  datatype JsValue =
    | Undefined
    | Null
    | Bool(b: bool)
    | Number(n: Num)
    | Str(s: string)
    | Arr(items: seq<JsValue>)
    | Obj(fields: seq<Field>)

  /** One own property of an object, in insertion order. */
  datatype Field = Field(name: string, val: JsValue)

  type Fields = seq<Field>

  /** The host runtime's number formatting (String(n) for a finite n) and
      string-to-number parsing (Number(s)); both are outside this model. */
  datatype Host = Host(format: real -> string, parse: string -> Num)

  /** What the model relies on about the host: the text of a number reads
      back as that number, is never empty and never contains a brace. */
  ghost predicate Coherent(h: Host)
  {
    forall r: real {:trigger h.format(r)} ::
      h.parse(h.format(r)) == Fin(r) && h.format(r) != "" && '{' !in h.format(r)
  }

  // ---------------------------------------------------------------------
  // Numbers

  /** `a < b` on two numbers; false as soon as one of them is NaN. */
  predicate NumLt(a: Num, b: Num)
  {
    a.Fin? && b.Fin? && a.r < b.r
  }

  /** `a >= b` on two numbers; false as soon as one of them is NaN. */
  predicate NumGe(a: Num, b: Num)
  {
    a.Fin? && b.Fin? && a.r >= b.r
  }

  /** `a > b` on two numbers. */
  predicate NumGt(a: Num, b: Num)
  {
    NumLt(b, a)
  }

  function NumSub(a: Num, b: Num): (r: Num)
    ensures r.Fin? <==> a.Fin? && b.Fin?
  {
    if a.Fin? && b.Fin? then Fin(a.r - b.r) else NaN
  }

  // ---------------------------------------------------------------------
  // Truthiness, String(), Number()

  /** Boolean(v). */
  predicate Truthy(v: JsValue)
  {
    match v
    case Undefined => false
    case Null => false
    case Bool(b) => b
    case Number(n) => n.Fin? && n.r != 0.0
    case Str(s) => s != ""
    case Arr(_) => true
    case Obj(_) => true
  }

  predicate Nullish(v: JsValue)
  {
    v.Undefined? || v.Null?
  }

  /** `a || b`: the first operand when it is truthy, the second otherwise. */
  function Or(a: JsValue, b: JsValue): (r: JsValue)
    ensures Truthy(r) <==> Truthy(a) || Truthy(b)
  {
    if Truthy(a) then a else b
  }

  /** `a ?? b`. */
  function Coalesce(a: JsValue, b: JsValue): (r: JsValue)
    ensures !Nullish(a) ==> r == a
    ensures Nullish(a) ==> r == b
  {
    if Nullish(a) then b else a
  }

  function NumText(h: Host, n: Num): string
  {
    match n
    case NaN => "NaN"
    case Fin(r) => h.format(r)
  }

  /** The texts joined with a separator, as Array.prototype.join does. */
  function Join(texts: seq<string>, sep: string): string
  {
    if texts == [] then ""
    else if |texts| == 1 then texts[0]
    else Join(texts[..|texts| - 1], sep) + sep + texts[|texts| - 1]
  }

  /** String(v); an array prints its items joined by commas, with null and
      undefined items printed as empty text. */
  function ToStr(h: Host, v: JsValue): string
  {
    match v
    case Undefined => "undefined"
    case Null => "null"
    case Bool(b) => if b then "true" else "false"
    case Number(n) => NumText(h, n)
    case Str(s) => s
    case Arr(items) =>
      Join(seq(|items|, i requires 0 <= i < |items| =>
             var x := items[i];
             assert x in items;
             if Nullish(x) then "" else ToStr(h, x)), ",")
    case Obj(_) => "[object Object]"
  }

  /** Number(v); objects and arrays go through their string form. */
  function ToNumber(h: Host, v: JsValue): Num
  {
    match v
    case Undefined => NaN
    case Null => Fin(0.0)
    case Bool(b) => if b then Fin(1.0) else Fin(0.0)
    case Number(n) => n
    case Str(s) => h.parse(s)
    case Arr(_) => h.parse(ToStr(h, v))
    case Obj(_) => h.parse(ToStr(h, v))
  }

  /** `a === b`. Two object or array operands are taken to be distinct
      objects, which is what two separately parsed configurations hold. */
  predicate StrictEq(a: JsValue, b: JsValue)
  {
    if a.Number? && a.n.NaN? then false
    else if a.Arr? || a.Obj? then false
    else a == b
  }

  /** `a == b` for the operands the card compares (entity ids): strict
      equality, or both operands null or undefined. The conversions `==`
      makes between numbers, strings and booleans are not modelled. */
  predicate LooseEq(a: JsValue, b: JsValue)
  {
    StrictEq(a, b) || (Nullish(a) && Nullish(b))
  }

  // ---------------------------------------------------------------------
  // Strings

  predicate Contains(s: string, sub: string)
  {
    exists i :: 0 <= i <= |s| - |sub| && OccursAt(s, sub, i)
  }

  predicate OccursAt(s: string, sub: string, i: int)
  {
    0 <= i <= |s| - |sub| && s[i..i + |sub|] == sub
  }

  /** s.slice(start, end) for a non-negative start and a negative end. */
  function SliceFromTo(s: string, start: nat, endFromBack: nat): (r: string)
    ensures |r| <= |s|
  {
    var e := if |s| >= endFromBack then |s| - endFromBack else 0;
    var b := if start <= |s| then start else |s|;
    if b < e then s[b..e] else ""
  }

  /** The decimal text of a natural number (an array index as a key). */
  function NatText(n: nat): (r: string)
    ensures r != ""
  {
    var d := ['0', '1', '2', '3', '4', '5', '6', '7', '8', '9'][n % 10];
    if n < 10 then [d] else NatText(n / 10) + [d]
  }

  // ---------------------------------------------------------------------
  // Objects

  /** The keys of an object. */
  function Names(fs: Fields): set<string>
  {
    set i | 0 <= i < |fs| :: fs[i].name
  }

  /** `o[name]`, undefined when absent. A JavaScript object holds each key
      once; should a list hold it twice, the later write is the one read. */
  function Get(fs: Fields, name: string): (v: JsValue)
    ensures name !in Names(fs) ==> v == Undefined
  {
    if fs == [] then Undefined
    else
      NamesSnoc(fs[..|fs| - 1], fs[|fs| - 1]);
      assert fs[..|fs| - 1] + [fs[|fs| - 1]] == fs;
      if fs[|fs| - 1].name == name then fs[|fs| - 1].val
      else Get(fs[..|fs| - 1], name)
  }

  /** `v[name]` on any value that is not null or undefined; only objects
      carry the properties the card reads. */
  function Prop(v: JsValue, name: string): JsValue
  {
    if v.Obj? then Get(v.fields, name) else Undefined
  }

  /** `o[name] = val` (and `{...o, [name]: val}`): an existing key keeps its
      place, a new key goes last. */
  function Set(fs: Fields, name: string, val: JsValue): (r: Fields)
    ensures Get(r, name) == val
    ensures forall k :: k != name ==> Get(r, k) == Get(fs, k)
    ensures Names(r) == Names(fs) + {name}
  {
    if name in Names(fs) then ReplaceAll(fs, name, val)
    else
      GetSnoc(fs, Field(name, val));
      NamesSnoc(fs, Field(name, val));
      fs + [Field(name, val)]
  }

  /** Every property named `name` rewritten to `val`, in place. */
  function ReplaceAll(fs: Fields, name: string, val: JsValue): (r: Fields)
    ensures |r| == |fs| && Names(r) == Names(fs)
    ensures forall k :: k != name ==> Get(r, k) == Get(fs, k)
    ensures name in Names(fs) ==> Get(r, name) == val
  {
    if fs == [] then []
    else
      var init, last := fs[..|fs| - 1], fs[|fs| - 1];
      var head := if last.name == name then Field(name, val) else last;
      var rest := ReplaceAll(init, name, val);
      assert init + [last] == fs;
      NamesSnoc(init, last);
      NamesSnoc(rest, head);
      GetSnoc(init, last);
      GetSnoc(rest, head);
      rest + [head]
  }

  /** `delete o[name]`. */
  function Delete(fs: Fields, name: string): (r: Fields)
    ensures Get(r, name) == Undefined
    ensures forall k :: k != name ==> Get(r, k) == Get(fs, k)
    ensures Names(r) == Names(fs) - {name}
    ensures name !in Names(fs) ==> r == fs
  {
    if fs == [] then []
    else
      var init, last := fs[..|fs| - 1], fs[|fs| - 1];
      var rest := Delete(init, name);
      assert init + [last] == fs;
      NamesSnoc(init, last);
      GetSnoc(init, last);
      if last.name == name then rest
      else
        NamesSnoc(rest, last);
        GetSnoc(rest, last);
        rest + [last]
  }

  /** `{...a, ...b}`: b's properties written over a, one by one. */
  function Spread(a: Fields, b: Fields): (r: Fields)
    ensures forall k :: k in Names(b) ==> Get(r, k) == Get(b, k)
    ensures forall k :: k !in Names(b) ==> Get(r, k) == Get(a, k)
    ensures Names(r) == Names(a) + Names(b)
  {
    if b == [] then
      assert Names(b) == {};
      a
    else
      var init, f := b[..|b| - 1], b[|b| - 1];
      var r := Spread(a, init);
      assert init + [f] == b;
      NamesSnoc(init, f);
      GetSnoc(init, f);
      Set(r, f.name, f.val)
  }

  /** The property names of Object(v), in order: an object's own keys, the
      indices of an array or a string, none for other primitives. */
  function Keys(v: JsValue): seq<string>
  {
    match v
    case Obj(fs) => seq(|fs|, i requires 0 <= i < |fs| => fs[i].name)
    case Arr(items) => seq(|items|, i requires 0 <= i < |items| => NatText(i))
    case Str(s) => seq(|s|, i requires 0 <= i < |s| => NatText(i))
    case _ => []
  }

  /** The entries [key, value] of Object(v), in the order of Keys(v). */
  function Entries(v: JsValue): (es: seq<Field>)
    ensures |es| == |Keys(v)|
    ensures forall i :: 0 <= i < |es| ==> es[i].name == Keys(v)[i]
  {
    match v
    case Obj(fs) => fs
    case Arr(items) => seq(|items|, i requires 0 <= i < |items| => Field(NatText(i), items[i]))
    case Str(s) => seq(|s|, i requires 0 <= i < |s| => Field(NatText(i), Str([s[i]])))
    case _ => []
  }

  /** The items `[...v]` yields: an array's items, a string's characters;
      any other value is not iterable. */
  function Iterate(v: JsValue): Outcome<seq<JsValue>>
  {
    match v
    case Arr(items) => Ok(items)
    case Str(s) => Ok(seq(|s|, i requires 0 <= i < |s| => Str([s[i]])))
    case _ => TypeError
  }

  // ---------------------------------------------------------------------
  // Helper lemmas about objects

  lemma NamesSnoc(fs: Fields, f: Field)
    ensures Names(fs + [f]) == Names(fs) + {f.name}
  {
    var g := fs + [f];
    forall k | k in Names(g) ensures k in Names(fs) + {f.name} {
      var i :| 0 <= i < |g| && g[i].name == k;
      if i < |fs| { assert fs[i].name == k; }
    }
    forall k | k in Names(fs) ensures k in Names(g) {
      var i :| 0 <= i < |fs| && fs[i].name == k;
      assert g[i].name == k;
    }
    assert g[|fs|].name == f.name;
  }

  /** Appending a property decides the value read for its key and leaves
      every other key alone. */
  lemma GetSnoc(fs: Fields, f: Field)
    ensures Get(fs + [f], f.name) == f.val
    ensures forall k :: k != f.name ==> Get(fs + [f], k) == Get(fs, k)
  {
    var g := fs + [f];
    assert g[..|g| - 1] == fs;
  }

  /** An object has at most as many keys as properties. */
  lemma {:induction false} NamesBound(fs: Fields)
    ensures |Names(fs)| <= |fs|
  {
    if fs != [] {
      var init := fs[..|fs| - 1];
      NamesBound(init);
      assert init + [fs[|fs| - 1]] == fs;
      NamesSnoc(init, fs[|fs| - 1]);
    }
  }

  /** A parsed object holds each key once. */
  predicate DistinctNames(fs: Fields)
  {
    forall i, j :: 0 <= i < j < |fs| ==> fs[i].name != fs[j].name
  }

  /** With distinct keys, every property is the one read for its key. */
  lemma {:induction false} GetDistinct(fs: Fields, i: nat)
    requires DistinctNames(fs) && i < |fs|
    ensures Get(fs, fs[i].name) == fs[i].val
  {
    var init, last := fs[..|fs| - 1], fs[|fs| - 1];
    assert init + [last] == fs;
    if i < |fs| - 1 {
      assert fs[i].name != last.name;
      GetDistinct(init, i);
      GetSnoc(init, last);
    }
  }

  /** With distinct keys, an object has as many keys as properties. */
  lemma {:induction false} NamesDistinct(fs: Fields)
    requires DistinctNames(fs)
    ensures |Names(fs)| == |fs|
  {
    if fs != [] {
      var init, last := fs[..|fs| - 1], fs[|fs| - 1];
      assert init + [last] == fs;
      assert DistinctNames(init);
      NamesDistinct(init);
      NamesSnoc(init, last);
      assert forall i :: 0 <= i < |init| ==> init[i].name != last.name;
      assert last.name !in Names(init);
    }
  }
}
