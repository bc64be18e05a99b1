/** JavaScript values as the source handles them: parsed JSON bodies, the
    objects it builds with spread syntax, and the truthiness tests it makes.
    Numbers are integers; objects keep their keys in insertion order. */
module Json {
  import opened Wrappers

  datatype Json =
    | Undefined
    | Null
    | Bool(b: bool)
    | Num(n: int)
    | Str(s: string)
    | Arr(items: seq<Json>)
    | Obj(fields: seq<(string, Json)>)

  /** JavaScript truthiness: `undefined`, `null`, `false`, `0` and `""` are falsy. */
  predicate Truthy(v: Json) {
    match v
    case Undefined => false
    case Null => false
    case Bool(b) => b
    case Num(n) => n != 0
    case Str(s) => s != ""
    case Arr(_) => true
    case Obj(_) => true
  }

  predicate Nullish(v: Json) {
    v.Undefined? || v.Null?
  }

  /** `typeof v === "object"` (which holds of `null` and of arrays). */
  predicate IsObjectType(v: Json) {
    v.Null? || v.Arr? || v.Obj?
  }

  /** The value stored under `key` in an object's field list. */
  function Lookup(fields: seq<(string, Json)>, key: string): (r: Option<Json>)
    ensures r.Some? <==> exists i :: 0 <= i < |fields| && fields[i].0 == key
  {
    if fields == [] then None
    else if fields[0].0 == key then Some(fields[0].1)
    else Lookup(fields[1..], key)
  }

  /** The own enumerable entries of a value, in order, as `{...v}` and
      `Object.entries` list them: an object's fields, an array's or a
      string's index keys, nothing for the other primitives. */
  function Spread(v: Json): seq<(string, Json)> {
    match v
    case Obj(fields) => fields
    case Arr(items) => seq(|items|, i requires 0 <= i < |items| => (NatToString(i), items[i]))
    case Str(s) => seq(|s|, i requires 0 <= i < |s| => (NatToString(i), Str([s[i]])))
    case _ => []
  }

  /** `key in v` for an object or array. */
  predicate Has(v: Json, key: string) {
    (v.Obj? || v.Arr?) && Lookup(Spread(v), key).Some?
  }

  /** `v.key` on a value that is not `null` or `undefined` (an array's
      `length` is not among the keys read here). */
  function Get(v: Json, key: string): Json {
    match Lookup(Spread(v), key)
    case Some(x) => x
    case None => Undefined
  }

  /** The message of the TypeError that `v.key` throws when `v` is nullish. */
  function ReadError(v: Json, key: string): string {
    "Cannot read properties of " + (if v.Null? then "null" else "undefined") + " (reading '" + key + "')"
  }

  /** `v.key`, including the TypeError thrown when `v` is `null` or `undefined`. */
  function Prop(v: Json, key: string): (r: Result<Json, string>)
    ensures r.Failure? <==> Nullish(v)
    ensures r.Success? ==> r.value == Get(v, key)
  {
    if Nullish(v) then Failure(ReadError(v, key)) else Success(Get(v, key))
  }

  /** `{...fields, key: value}`: an existing key keeps its position and takes
      the new value; a new key goes last. */
  function With(fields: seq<(string, Json)>, key: string, value: Json): (r: seq<(string, Json)>)
    ensures |r| == |fields| || |r| == |fields| + 1
  {
    if fields == [] then [(key, value)]
    else if fields[0].0 == key then [(key, value)] + fields[1..]
    else [fields[0]] + With(fields[1..], key, value)
  }

  /** Setting a key the object does not have appends it at the end. */
  lemma {:induction false} WithAbsent(fields: seq<(string, Json)>, key: string, value: Json)
    requires forall i :: 0 <= i < |fields| ==> fields[i].0 != key
    ensures With(fields, key, value) == fields + [(key, value)]
  {
    if fields != [] {
      WithAbsent(fields[1..], key, value);
      assert fields == [fields[0]] + fields[1..];
    }
  }

  lemma {:induction false} LookupWithSame(fields: seq<(string, Json)>, key: string, value: Json)
    ensures Lookup(With(fields, key, value), key) == Some(value)
  {
    if fields != [] && fields[0].0 != key {
      LookupWithSame(fields[1..], key, value);
    }
  }

  lemma {:induction false} LookupWithOther(fields: seq<(string, Json)>, key: string, value: Json, other: string)
    requires other != key
    ensures Lookup(With(fields, key, value), other) == Lookup(fields, other)
  {
    if fields != [] && fields[0].0 != key {
      LookupWithOther(fields[1..], key, value, other);
    }
  }

  /** A lookup yields the value of the first field carrying the key. */
  lemma {:induction false} LookupFirst(fields: seq<(string, Json)>, key: string, i: int)
    requires 0 <= i < |fields| && fields[i].0 == key
    requires forall j :: 0 <= j < i ==> fields[j].0 != key
    ensures Lookup(fields, key) == Some(fields[i].1)
  {
    if i > 0 {
      LookupFirst(fields[1..], key, i - 1);
    }
  }

  /** Reading an object after `{...v, key: value}`: `key` gives the new value,
      every other key what `v` gave. */
  lemma GetAfterWith(v: Json, key: string, value: Json, other: string)
    ensures Get(Obj(With(Spread(v), key, value)), key) == value
    ensures other != key ==> Get(Obj(With(Spread(v), key, value)), other) == Get(v, other)
  {
    LookupWithSame(Spread(v), key, value);
    if other != key {
      LookupWithOther(Spread(v), key, value, other);
    }
  }

  /** Decimal digits of a natural number, as `Number.prototype.toString` writes them. */
  function NatToString(n: nat): (s: string)
    ensures |s| > 0
    ensures forall i :: 0 <= i < |s| ==> '0' <= s[i] <= '9'
    decreases n
  {
    if n < 10 then [Digit(n)] else NatToString(n / 10) + [Digit(n % 10)]
  }

  function Digit(d: nat): (c: char)
    requires d < 10
    ensures '0' <= c <= '9'
  {
    ['0', '1', '2', '3', '4', '5', '6', '7', '8', '9'][d]
  }

  function IntToString(i: int): string {
    if i < 0 then "-" + NatToString(-i) else NatToString(i)
  }

  /** `String(v)`, as `new Error(v)` and template literals apply it. */
  function JsString(v: Json): string {
    match v
    case Undefined => "undefined"
    case Null => "null"
    case Bool(b) => if b then "true" else "false"
    case Num(n) => IntToString(n)
    case Str(s) => s
    case Arr(items) => Join(seq(|items|, i requires 0 <= i < |items| =>
                            if Nullish(items[i]) then "" else JsString(items[i])), ",")
    case Obj(_) => "[object Object]"
  }

  function Join(parts: seq<string>, sep: string): string {
    if parts == [] then ""
    else if |parts| == 1 then parts[0]
    else parts[0] + sep + Join(parts[1..], sep)
  }

  /** `s || fallback` for a string `s`. */
  function OrElse(s: string, fallback: string): (r: string)
    ensures r == s || r == fallback
    ensures r == "" ==> fallback == ""
  {
    if s != "" then s else fallback
  }

  /** `s.startsWith(prefix)`. */
  predicate StartsWith(s: string, prefix: string) {
    |prefix| <= |s| && s[..|prefix|] == prefix
  }

  /** `s.includes(sub)`. */
  predicate Contains(s: string, sub: string)
    decreases |s|
  {
    StartsWith(s, sub) || (|s| > 0 && Contains(s[1..], sub))
  }

  /** `s.includes(sub)` holds exactly when `sub` occurs at some position of `s`. */
  lemma {:induction false} ContainsIffOccurs(s: string, sub: string)
    ensures Contains(s, sub) <==> exists i :: 0 <= i <= |s| - |sub| && StartsWith(s[i..], sub)
    decreases |s|
  {
    if StartsWith(s, sub) {
      assert s[0..] == s;
    } else if |s| > 0 {
      ContainsIffOccurs(s[1..], sub);
      if Contains(s[1..], sub) {
        var i :| 0 <= i <= |s[1..]| - |sub| && StartsWith(s[1..][i..], sub);
        assert s[1..][i..] == s[i + 1..];
      }
      if exists i :: 0 <= i <= |s| - |sub| && StartsWith(s[i..], sub) {
        var i :| 0 <= i <= |s| - |sub| && StartsWith(s[i..], sub);
        assert i != 0 by { assert s[0..] == s; }
        assert s[1..][i - 1..] == s[i..];
      }
    }
  }
}
