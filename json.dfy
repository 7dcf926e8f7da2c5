/** JavaScript values as the handlers and components see them after `JSON.parse`,
    with the loose truthiness that `||`, `&&` and `if (x)` apply to them. */
module Json {

  /** A JavaScript value. `Undefined` stands for a missing property; JSON text
      never produces it, but every optional-chaining lookup can. Numbers are
      exact reals: no NaN, no infinities, no rounding. */
  datatype Json =
    | Undefined
    | Null
    | Bool(b: bool)
    | Num(n: real)
    | Str(s: string)
    | Arr(items: seq<Json>)
    | Obj(fields: map<string, Json>)

  /** JavaScript's ToBoolean: `false`, `0`, `''`, `null` and `undefined` are falsy;
      every array and object, even an empty one, is truthy. */
  predicate Truthy(v: Json)
  {
    match v
    case Undefined => false
    case Null => false
    case Bool(b) => b
    case Num(n) => n != 0.0
    case Str(s) => s != ""
    case Arr(_) => true
    case Obj(_) => true
  }

  /** Arrays and objects are compared by reference; everything else by value. */
  predicate IsPrimitive(v: Json)
  {
    !v.Arr? && !v.Obj?
  }

  /** `a === b` where `a` and `b` come from different parses: two arrays or objects
      are then never the same reference. Without NaN this is also SameValueZero,
      the equality a `Set` uses. */
  predicate StrictEq(a: Json, b: Json)
  {
    IsPrimitive(a) && a == b
  }

  /** `a || b`: the left operand when it is truthy, else the right one, whatever it is. */
  function Or(a: Json, b: Json): (r: Json)
    ensures Truthy(r) <==> Truthy(a) || Truthy(b)
    ensures r == a || r == b
    ensures !Truthy(a) ==> r == b
  {
    if Truthy(a) then a else b
  }

  /** `c[0] || c[1] || ... || c[n-1]`. */
  function Chain(c: seq<Json>): Json
    requires |c| > 0
  {
    if |c| == 1 then c[0] else Or(c[0], Chain(c[1..]))
  }

  /** Index of the first truthy operand of a chain, or of its last operand when none is. */
  function FirstTruthyIndex(c: seq<Json>): (k: nat)
    requires |c| > 0
    ensures k < |c|
    ensures forall j :: 0 <= j < k ==> !Truthy(c[j])
    ensures Truthy(c[k]) || k == |c| - 1
  {
    if |c| == 1 || Truthy(c[0]) then 0 else 1 + FirstTruthyIndex(c[1..])
  }

  /** A `||` chain returns its first truthy operand, or its last operand when all are
      falsy (so a falsy value at an earlier position is skipped, never returned). */
  lemma {:induction false} ChainIsFirstTruthy(c: seq<Json>)
    requires |c| > 0
    ensures Chain(c) == c[FirstTruthyIndex(c)]
    ensures Truthy(Chain(c)) <==> exists j :: 0 <= j < |c| && Truthy(c[j])
  {
    if |c| > 1 {
      ChainIsFirstTruthy(c[1..]);
      if !Truthy(c[0]) {
        forall j | 1 <= j < |c| && Truthy(c[j])
          ensures Truthy(Chain(c))
        {
          assert c[1..][j - 1] == c[j];
        }
      }
    }
  }

  /** Decimal digits of a natural number, the way JavaScript names array indices. */
  function NatToDecimal(n: nat): (s: string)
    ensures |s| > 0
    ensures forall i :: 0 <= i < |s| ==> '0' <= s[i] <= '9'
  {
    if n < 10 then [(48 + n) as char] else NatToDecimal(n / 10) + [(48 + n % 10) as char]
  }

  /** Own enumerable properties of `items[..n]`, keyed "0", "1", ... */
  function IndexEntries(items: seq<Json>, n: nat): (m: map<string, Json>)
    requires n <= |items|
    ensures forall i :: 0 <= i < n ==> NatToDecimal(i) in m
  {
    if n == 0 then map[] else IndexEntries(items, n - 1)[NatToDecimal(n - 1) := items[n - 1]]
  }

  /** `Object.entries(v)` as a map, for the values it is applied to here: an object's
      own properties, an array's indices, nothing for other values. */
  function Entries(v: Json): map<string, Json>
  {
    match v
    case Obj(m) => m
    case Arr(items) => IndexEntries(items, |items|)
    case _ => map[]
  }

  /** `v?.[key]`: the property when `v` has it, `undefined` otherwise (including when
      `v` is `null`, `undefined` or a primitive). */
  function Prop(v: Json, key: string): (r: Json)
    ensures v.Obj? && key in v.fields ==> r == v.fields[key]
    ensures v.Obj? && key !in v.fields ==> r == Undefined
    ensures !v.Obj? && !v.Arr? ==> r == Undefined
  {
    var e := Entries(v);
    if key in e then e[key] else Undefined
  }

  /** `v?.k1?.k2?...`: property lookups along a path, `undefined` as soon as one is missing. */
  function Path(v: Json, keys: seq<string>): (r: Json)
    ensures v == Undefined ==> r == Undefined
    decreases keys
  {
    if keys == [] then v else Path(Prop(v, keys[0]), keys[1..])
  }

  /** A property value of a string-valued record, as JavaScript reads it. */
  function Field(row: map<string, string>, key: string): (r: Json)
    ensures key in row <==> r.Str?
    ensures key in row ==> r == Str(row[key])
  {
    if key in row then Str(row[key]) else Undefined
  }
}
