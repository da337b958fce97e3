/**
 * JavaScript values as the data-product generator sees them: parsed JSON
 * plus `undefined`, with the handful of language operations the generator
 * relies on (truthiness, property read and write, object spread,
 * `Object.entries`, `String(...)`).
 */
module Js {

  datatype Option<T> = None | Some(value: T)

  /** A JavaScript value. Numbers are modelled as integers. */
  datatype Json =
    | Undef
    | Null
    | Bool(b: bool)
    | Num(n: int)
    | Str(s: string)
    | Arr(items: seq<Json>)
    | Obj(fields: seq<Field>)

  /** One own property of a plain object, in insertion order. */
  datatype Field = Field(key: string, value: Json)

  /** A plain object: its own properties in insertion order. */
  type Object = seq<Field>

  /** What a JavaScript `throw` carries in this model. */
  datatype Exception = TypeError | Thrown(message: string)

  /** The outcome of code that may throw. */
  datatype Result<T> = Ok(value: T) | Err(error: Exception) {
    predicate IsFailure() { Err? }
    function PropagateFailure<U>(): Result<U>
      requires Err?
    {
      Err(error)
    }
    function Extract(): T
      requires Ok?
    {
      value
    }
  }

  /** `[...acc, ...rest]` where computing `rest` may have thrown. */
  function Prepend<T>(acc: seq<T>, r: Result<seq<T>>): (out: Result<seq<T>>)
    ensures out.Ok? <==> r.Ok?
    ensures r.Err? ==> out == r
    ensures r.Ok? ==> out.value == acc + r.value
  {
    if r.Err? then r else Ok(acc + r.value)
  }

  /** Nothing before the rest adds nothing; two prefixes add their concatenation. */
  lemma PrependLaws<T>(acc: seq<T>, head: seq<T>, r: Result<seq<T>>)
    ensures Prepend([], r) == r
    ensures Prepend(acc, Prepend(head, r)) == Prepend(acc + head, r)
  {
    if r.Ok? {
      assert [] + r.value == r.value;
      assert acc + (head + r.value) == (acc + head) + r.value;
    }
  }

  // ---------------------------------------------------------------------------
  // Truthiness and `typeof`
  // ---------------------------------------------------------------------------

  /** `!!v`: undefined, null, false, 0 and "" are falsy. */
  predicate Truthy(v: Json)
  {
    match v
    case Undef => false
    case Null => false
    case Bool(b) => b
    case Num(n) => n != 0
    case Str(s) => s != ""
    case Arr(_) => true
    case Obj(_) => true
  }

  /** `a || b` */
  function Or(a: Json, b: Json): (r: Json)
    ensures Truthy(a) ==> r == a
    ensures !Truthy(a) ==> r == b
  {
    if Truthy(a) then a else b
  }

  /** `v === null || v === undefined`: reading a property of such a value throws. */
  predicate IsNullish(v: Json)
  {
    v.Undef? || v.Null?
  }

  /** `typeof v === "object"` (true for null and arrays as well). */
  predicate IsObjectType(v: Json)
  {
    v.Null? || v.Arr? || v.Obj?
  }

  // ---------------------------------------------------------------------------
  // Property read and write
  // ---------------------------------------------------------------------------

  /** The keys of an object, in order. */
  function Keys(o: Object): (ks: seq<string>)
    ensures |ks| == |o|
    ensures forall i :: 0 <= i < |o| ==> ks[i] == o[i].key
  {
    if o == [] then [] else [o[0].key] + Keys(o[1..])
  }

  predicate HasKey(o: Object, k: string)
  {
    exists i :: 0 <= i < |o| && o[i].key == k
  }

  /** `o[k]` on a plain object: the value of its property `k`, undefined when it has none. */
  function Lookup(o: Object, k: string): (r: Json)
  {
    if o == [] then Undef
    else if o[0].key == k then o[0].value
    else Lookup(o[1..], k)
  }

  /** The value of the first property named `o[i].key`. */
  lemma LookupAt(o: Object, i: nat)
    requires i < |o| && forall j :: 0 <= j < i ==> o[j].key != o[i].key
    ensures Lookup(o, o[i].key) == o[i].value
  {
    if i > 0 {
      LookupAt(o[1..], i - 1);
    }
  }

  /**
   * `v[k]` on a value that is not null or undefined. Only plain objects have
   * named properties in this model; the index properties of arrays and
   * strings are reached through `OwnEntries` instead.
   */
  function Get(v: Json, k: string): (r: Json)
    ensures !v.Obj? ==> r == Undef
  {
    if v.Obj? then Lookup(v.fields, k) else Undef
  }

  /** `v[k]` in general: it throws a TypeError when `v` is null or undefined. */
  function Member(v: Json, k: string): (r: Result<Json>)
    ensures r.Err? <==> IsNullish(v)
    ensures r.Ok? ==> r.value == Get(v, k)
  {
    if IsNullish(v) then Err(TypeError) else Ok(Get(v, k))
  }

  /**
   * `o[k] = v`: an existing property keeps its place and takes the new
   * value, a new property is appended.
   */
  function Set(o: Object, k: string, v: Json): (r: Object)
    ensures Lookup(r, k) == v
    ensures forall k' :: k' != k ==> Lookup(r, k') == Lookup(o, k')
  {
    SetRecLookup(o, k, v);
    SetRec(o, k, v)
  }

  function SetRec(o: Object, k: string, v: Json): Object
  {
    if o == [] then [Field(k, v)]
    else if o[0].key == k then [Field(k, v)] + o[1..]
    else [o[0]] + SetRec(o[1..], k, v)
  }

  lemma SetRecLookup(o: Object, k: string, v: Json)
    ensures Lookup(SetRec(o, k, v), k) == v
    ensures forall k' :: k' != k ==> Lookup(SetRec(o, k, v), k') == Lookup(o, k')
  {
  }

  /** Writing a property adds its key and no other. */
  lemma {:induction false} SetHasKey(o: Object, k: string, v: Json, k': string)
    ensures HasKey(Set(o, k, v), k') <==> HasKey(o, k') || k' == k
  {
    var r := Set(o, k, v);
    if o == [] {
      assert r[0].key == k;
    } else if o[0].key == k {
      assert r[0].key == k && o[0].key == k;
      if HasKey(r, k') {
        var i :| 0 <= i < |r| && r[i].key == k';
        assert o[i].key == k';
      }
      if HasKey(o, k') {
        var i :| 0 <= i < |o| && o[i].key == k';
        assert r[i].key == k';
      }
    } else {
      var tail := Set(o[1..], k, v);
      assert r == [o[0]] + tail;
      SetHasKey(o[1..], k, v, k');
      HasKeyCons(o, k');
      HasKeyCons(r, k');
      assert r[1..] == tail;
    }
  }

  /** A key is in a non-empty object when it is the first key or a key of the rest. */
  lemma HasKeyCons(o: Object, k: string)
    requires o != []
    ensures HasKey(o, k) <==> o[0].key == k || HasKey(o[1..], k)
  {
    if HasKey(o, k) && o[0].key != k {
      var i :| 0 <= i < |o| && o[i].key == k;
      assert o[1..][i - 1].key == k;
    }
    if HasKey(o[1..], k) {
      var i :| 0 <= i < |o[1..]| && o[1..][i].key == k;
      assert o[i + 1].key == k;
    }
  }

  /** Writing a property keeps the key order and appends a new key at the end. */
  lemma {:induction false} SetKeys(o: Object, k: string, v: Json)
    ensures HasKey(o, k) ==> Keys(Set(o, k, v)) == Keys(o)
    ensures !HasKey(o, k) ==> Keys(Set(o, k, v)) == Keys(o) + [k]
  {
    if o != [] {
      HasKeyCons(o, k);
      if o[0].key != k {
        SetKeys(o[1..], k, v);
        assert Set(o, k, v) == [o[0]] + Set(o[1..], k, v);
        assert Keys(Set(o, k, v)) == [o[0].key] + Keys(Set(o[1..], k, v));
      } else {
        assert Keys(Set(o, k, v)) == [k] + Keys(o[1..]);
      }
    }
  }

  /** Writing the value a property already reads leaves the object as it was. */
  lemma {:induction false} SetSame(o: Object, k: string, v: Json)
    requires v != Undef && Lookup(o, k) == v
    ensures Set(o, k, v) == o
  {
    if o[0].key == k {
      assert o[0] == Field(k, v);
      assert [o[0]] + o[1..] == o;
    } else {
      SetSame(o[1..], k, v);
      assert Set(o, k, v) == [o[0]] + Set(o[1..], k, v);
      assert [o[0]] + o[1..] == o;
    }
  }

  /** A property appended under another name does not change what `k` reads. */
  lemma {:induction false} LookupSnoc(o: Object, f: Field, k: string)
    requires f.key != k
    ensures Lookup(o + [f], k) == Lookup(o, k)
  {
    if o != [] {
      assert (o + [f])[1..] == o[1..] + [f];
      LookupSnoc(o[1..], f, k);
    }
  }

  /** Appending a property adds its name and no other. */
  lemma HasKeySnoc(o: Object, f: Field, k: string)
    ensures HasKey(o + [f], k) <==> HasKey(o, k) || f.key == k
  {
    if HasKey(o + [f], k) && f.key != k {
      var i :| 0 <= i < |o + [f]| && (o + [f])[i].key == k;
      assert o[i].key == k;
    }
    if HasKey(o, k) {
      var i :| 0 <= i < |o| && o[i].key == k;
      assert (o + [f])[i].key == k;
    }
    if f.key == k {
      assert (o + [f])[|o|].key == k;
    }
  }

  /** A property of the front part of an object shadows the back part's. */
  lemma {:induction false} LookupConcat(a: Object, b: Object, k: string)
    ensures Lookup(a + b, k) == if HasKey(a, k) then Lookup(a, k) else Lookup(b, k)
  {
    if a == [] {
      assert a + b == b;
    } else {
      HasKeyCons(a, k);
      assert (a + b)[1..] == a[1..] + b;
      LookupConcat(a[1..], b, k);
    }
  }

  /** A property that was never written reads as undefined. */
  lemma {:induction false} LookupMissing(o: Object, k: string)
    requires !HasKey(o, k)
    ensures Lookup(o, k) == Undef
  {
    if o != [] {
      HasKeyCons(o, k);
      LookupMissing(o[1..], k);
    }
  }

  /** `Object.assign(o, ...)` / the spread `{...o, ...src}`: the fields of `src` written in order. */
  function Assign(o: Object, src: seq<Field>): (r: Object)
    decreases |src|
  {
    if src == [] then o
    else Set(Assign(o, src[..|src| - 1]), src[|src| - 1].key, src[|src| - 1].value)
  }

  /** The value the last field named `k` of `src` holds, or `dflt` when there is none. */
  function LastValue(src: seq<Field>, k: string, dflt: Json): Json
    decreases |src|
  {
    if src == [] then dflt
    else if src[|src| - 1].key == k then src[|src| - 1].value
    else LastValue(src[..|src| - 1], k, dflt)
  }

  /** After a spread, every property holds the last value written to it. */
  lemma {:induction false} LookupAssign(o: Object, src: seq<Field>, k: string)
    ensures Lookup(Assign(o, src), k) == LastValue(src, k, Lookup(o, k))
    decreases |src|
  {
    if src != [] {
      LookupAssign(o, src[..|src| - 1], k);
    }
  }

  /** A spread only ever adds keys, and adds exactly those of `src`. */
  lemma {:induction false} HasKeyAssign(o: Object, src: seq<Field>, k: string)
    ensures HasKey(Assign(o, src), k) <==> HasKey(o, k) || HasKey(src, k)
    decreases |src|
  {
    if src != [] {
      var p := src[..|src| - 1];
      HasKeyAssign(o, p, k);
      SetHasKey(Assign(o, p), src[|src| - 1].key, src[|src| - 1].value, k);
      if HasKey(src, k) && src[|src| - 1].key == k {
        assert src[|src| - 1].key == k;
      }
      if HasKey(p, k) {
        var i :| 0 <= i < |p| && p[i].key == k;
        assert src[i].key == k;
      }
      if HasKey(src, k) && src[|src| - 1].key != k {
        var i :| 0 <= i < |src| && src[i].key == k;
        assert p[i].key == k;
      }
    }
  }

  /** No two properties share a name, as in every object `JSON.parse` produces. */
  predicate UniqueKeys(o: Object)
  {
    forall i, j :: 0 <= i < j < |o| ==> o[i].key != o[j].key
  }

  /** With unique names, the last value written under `k` is the one `k` holds, if any. */
  lemma {:induction false} LastValueUnique(src: seq<Field>, k: string, dflt: Json)
    requires UniqueKeys(src)
    ensures LastValue(src, k, dflt) == if HasKey(src, k) then Lookup(src, k) else dflt
    decreases |src|
  {
    if src != [] {
      var p := src[..|src| - 1];
      var last := src[|src| - 1];
      assert UniqueKeys(p);
      LastValueUnique(p, k, dflt);
      if last.key == k {
        forall j | 0 <= j < |src| - 1 ensures src[j].key != k { }
        LookupAt(src, |src| - 1);
      } else {
        assert HasKey(src, k) <==> HasKey(p, k) by {
          if HasKey(src, k) {
            var i :| 0 <= i < |src| && src[i].key == k;
            assert p[i].key == k;
          }
          if HasKey(p, k) {
            var i :| 0 <= i < |p| && p[i].key == k;
            assert src[i].key == k;
          }
        }
        if HasKey(p, k) {
          var i := FirstKey(p, k);
          assert src[i] == p[i];
          LookupAt(src, i);
          LookupAt(p, i);
        }
      }
    }
  }

  /** The position of the first property named `k`. */
  function FirstKey(o: Object, k: string): (i: nat)
    requires HasKey(o, k)
    ensures i < |o| && o[i].key == k && forall j :: 0 <= j < i ==> o[j].key != k
    ensures Lookup(o, k) == o[i].value
  {
    if o[0].key == k then 0
    else
      assert HasKey(o[1..], k) by {
        var i :| 0 <= i < |o| && o[i].key == k;
        assert o[1..][i - 1].key == k;
      }
      1 + FirstKey(o[1..], k)
  }

  // ---------------------------------------------------------------------------
  // Object.entries, String(...), length
  // ---------------------------------------------------------------------------

  /** The decimal digits of a natural number. */
  function NatToString(n: nat): (s: string)
    ensures |s| >= 1
    ensures forall i :: 0 <= i < |s| ==> '0' <= s[i] <= '9'
    decreases n
  {
    if n < 10 then [Digit(n)] else NatToString(n / 10) + [Digit(n % 10)]
  }

  function Digit(d: nat): (c: char)
    requires d < 10
    ensures '0' <= c <= '9'
  {
    ('0' as int + d) as char
  }

  /** The value of a string of decimal digits, read left to right. */
  function DecimalValue(s: string): nat
  {
    if s == [] then 0
    else
      var c := s[|s| - 1];
      DecimalValue(s[..|s| - 1]) * 10 + (if '0' <= c <= '9' then c as int - '0' as int else 0)
  }

  /** Reading back the digits of `String(n)` gives `n`. */
  lemma {:induction false} NatToStringRoundTrip(n: nat)
    ensures DecimalValue(NatToString(n)) == n
    decreases n
  {
    var s := NatToString(n);
    if n >= 10 {
      NatToStringRoundTrip(n / 10);
      assert s[..|s| - 1] == NatToString(n / 10);
    } else {
      assert s[..|s| - 1] == [];
    }
  }

  /** `String(n)` for an integer. */
  function IntToString(n: int): string
  {
    if n < 0 then "-" + NatToString(-n) else NatToString(n)
  }

  /**
   * `Object.entries(v)` (and what a spread `...v` copies): the properties of
   * a plain object, the indexed elements of an array or the characters of a
   * string; other values have none.
   */
  function OwnEntries(v: Json): (r: seq<Field>)
    ensures v.Obj? ==> r == v.fields
    ensures v.Arr? ==> |r| == |v.items| && forall i :: 0 <= i < |r| ==> r[i] == Field(NatToString(i), v.items[i])
    ensures v.Str? ==> |r| == |v.s| && forall i :: 0 <= i < |r| ==> r[i] == Field(NatToString(i), Str([v.s[i]]))
    ensures !v.Obj? && !v.Arr? && !v.Str? ==> r == []
  {
    match v
    case Obj(fs) => fs
    case Arr(items) => seq(|items|, i requires 0 <= i < |items| => Field(NatToString(i), items[i]))
    case Str(s) => seq(|s|, i requires 0 <= i < |s| => Field(NatToString(i), Str([s[i]])))
    case _ => []
  }

  /** The index keys of arrays and strings are digit strings, never a name such as `id`. */
  lemma IndexKeysAreDigits(v: Json, k: string)
    requires !v.Obj? && k != [] && !('0' <= k[0] <= '9')
    ensures !HasKey(OwnEntries(v), k)
  {
    var es := OwnEntries(v);
    forall i | 0 <= i < |es| ensures es[i].key != k {
      assert es[i].key[0] == NatToString(i)[0];
    }
  }

  /** Distinct indices give distinct keys: the entries of an array or a string never repeat a key. */
  lemma IndexKeysUnique(v: Json)
    requires !v.Obj?
    ensures UniqueKeys(OwnEntries(v))
  {
    var es := OwnEntries(v);
    forall i, j | 0 <= i < j < |es| ensures es[i].key != es[j].key {
      NatToStringRoundTrip(i);
      NatToStringRoundTrip(j);
    }
  }

  /** `Object.values(v)` */
  function OwnValues(v: Json): (r: seq<Json>)
    ensures |r| == |OwnEntries(v)|
    ensures forall i :: 0 <= i < |r| ==> r[i] == OwnEntries(v)[i].value
  {
    var es := OwnEntries(v);
    seq(|es|, i requires 0 <= i < |es| => es[i].value)
  }

  /** `[...v]`: arrays and strings are iterable, anything else throws. */
  function Iterate(v: Json): (r: Result<seq<Json>>)
    ensures r.Ok? <==> v.Arr? || v.Str?
    ensures v.Arr? ==> r == Ok(v.items)
    ensures v.Str? ==> r.Ok? && |r.value| == |v.s| && forall i :: 0 <= i < |v.s| ==> r.value[i] == Str([v.s[i]])
  {
    match v
    case Arr(items) => Ok(items)
    case Str(s) => Ok(seq(|s|, i requires 0 <= i < |s| => Str([s[i]])))
    case _ => Err(TypeError)
  }

  /** `ss.join(sep)` */
  function Join(ss: seq<string>, sep: string): string
  {
    if ss == [] then ""
    else if |ss| == 1 then ss[0]
    else ss[0] + sep + Join(ss[1..], sep)
  }

  /**
   * `String(v)`, also what a template literal `${v}` produces: arrays join
   * their elements with commas (null and undefined elements become empty),
   * plain objects print as "[object Object]".
   */
  function JsString(v: Json): (s: string)
    ensures v.Str? ==> s == v.s
    ensures v.Undef? ==> s == "undefined"
    decreases v
  {
    match v
    case Undef => "undefined"
    case Null => "null"
    case Bool(b) => if b then "true" else "false"
    case Num(n) => IntToString(n)
    case Str(s) => s
    case Arr(items) =>
      Join(seq(|items|, i requires 0 <= i < |items| => if IsNullish(items[i]) then "" else JsString(items[i])), ",")
    case Obj(_) => "[object Object]"
  }

  /** `v.length`: arrays and strings have one; a plain object only if it has that property. */
  function Length(v: Json): (r: Json)
    ensures v.Arr? ==> r == Num(|v.items|)
    ensures v.Str? ==> r == Num(|v.s|)
  {
    match v
    case Arr(items) => Num(|items|)
    case Str(s) => Num(|s|)
    case Obj(fs) => Lookup(fs, "length")
    case _ => Undef
  }

  /** `v?.length > 0`, comparisons with undefined being false. */
  predicate HasPositiveLength(v: Json)
  {
    var l := Length(v);
    l.Num? && l.n > 0
  }

  /**
   * `a === b` where `b` was freshly produced by JSON.parse: an array or
   * object on either side is a reference that the other side cannot share.
   */
  predicate StrictEqualsFresh(a: Json, b: Json)
  {
    a == b && !a.Arr? && !a.Obj?
  }

  /** `xs.filter(s => typeof s === 'string')` */
  function StringsOnly(xs: seq<Json>): (r: seq<Json>)
  {
    if xs == [] then []
    else (if xs[0].Str? then [xs[0]] else []) + StringsOnly(xs[1..])
  }

  /** The filter keeps exactly the string entries, and nothing else. */
  lemma {:induction false} StringsOnlySpec(xs: seq<Json>)
    ensures forall x :: x in StringsOnly(xs) <==> x in xs && x.Str?
    ensures |StringsOnly(xs)| <= |xs|
  {
    if xs != [] {
      StringsOnlySpec(xs[1..]);
      assert xs == [xs[0]] + xs[1..];
    }
  }

  /** The filter keeps a list of strings as it is. */
  lemma {:induction false} StringsOnlyKeepsStrings(xs: seq<Json>)
    requires forall i :: 0 <= i < |xs| ==> xs[i].Str?
    ensures StringsOnly(xs) == xs
  {
    if xs != [] {
      StringsOnlyKeepsStrings(xs[1..]);
      assert xs == [xs[0]] + xs[1..];
    }
  }

  /** `array.includes(v)` for an array of string constants. */
  predicate IsOneOf(v: Json, allowed: seq<string>)
  {
    v.Str? && v.s in allowed
  }
}
