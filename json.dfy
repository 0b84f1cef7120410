/** The JSON-shaped values that travel through the request bodies, the
    document store and the extraction service, with the two JavaScript
    operations the code applies to them: truthiness tests (`if (!x)`) and
    object spread (`{ ...a, ...b }`). */
module Json {
  import opened Common

  /** A JSON value. Numbers are modelled as integers. */
  datatype Value =
    | Null
    | Bool(b: bool)
    | Num(n: int)
    | Str(s: string)
    | Arr(items: seq<Value>)
    | Obj(members: map<string, Value>)

  /** JavaScript truthiness of a possibly absent value: `undefined`, `null`,
      `false`, `0` and `""` are falsy; everything else, every object and array
      included, is truthy. */
  predicate Truthy(v: Option<Value>) {
    match v
    case None => false
    case Some(Null) => false
    case Some(Bool(b)) => b
    case Some(Num(n)) => n != 0
    case Some(Str(s)) => s != ""
    case Some(Arr(_)) => true
    case Some(Obj(_)) => true
  }

  /** Truthiness of an optional string, as `if (!s)` tests it. */
  predicate TruthyText(s: Option<string>) {
    s.Some? && s.value != ""
  }

  /** `M.k` for a value other than `null` (reading a member of `null` throws,
      which callers handle themselves) and a name no prototype defines, such as
      `userId` or `image`: the object's own member `k`, and `undefined` for a
      missing member and for a boolean, number, string or array. */
  function Member(v: Value, k: string): (r: Option<Value>)
    ensures r.Some? <==> v.Obj? && k in v.members
    ensures r.Some? ==> r.value == v.members[k]
  {
    if v.Obj? && k in v.members then Some(v.members[k]) else None
  }

  /** The own enumerable properties that `{ ...v }` copies: an object's members,
      an array's elements and a string's characters under their decimal
      indices, and nothing for `null`, booleans and numbers. */
  function Spread(v: Value): (m: map<string, Value>)
    ensures v.Obj? ==> m == v.members
    ensures v.Null? || v.Bool? || v.Num? ==> m == map[]
    ensures v.Arr? ==> forall i :: 0 <= i < |v.items| ==>
      Decimal(i) in m && m[Decimal(i)] == v.items[i]
    ensures v.Str? ==> forall i :: 0 <= i < |v.s| ==>
      Decimal(i) in m && m[Decimal(i)] == Str([v.s[i]])
    ensures v.Arr? ==> forall k :: k in m ==> exists i :: 0 <= i < |v.items| && k == Decimal(i)
    ensures v.Str? ==> forall k :: k in m ==> exists i :: 0 <= i < |v.s| && k == Decimal(i)
  {
    match v
    case Obj(members) => members
    case Arr(items) => IndexMap(items)
    case Str(s) => IndexMap(seq(|s|, i requires 0 <= i < |s| => Str([s[i]])))
    case _ => map[]
  }

  /** The properties `0`, `1`, ... of an array-like value. */
  function IndexMap(items: seq<Value>): (m: map<string, Value>)
    ensures forall i :: 0 <= i < |items| ==> Decimal(i) in m && m[Decimal(i)] == items[i]
    ensures forall k :: k in m ==> exists i :: 0 <= i < |items| && k == Decimal(i)
  {
    forall i, j | 0 <= i < |items| && 0 <= j < |items| && Decimal(i) == Decimal(j)
      ensures i == j
    {
      DecimalInjective(i, j);
    }
    map i | 0 <= i < |items| :: Decimal(i) := items[i]
  }

  /** `{ ...base, ...extra }`: every key of either side, and where both have a
      key, the value written last (`extra`'s) wins. */
  function Overlay(base: map<string, Value>, extra: map<string, Value>): (r: map<string, Value>)
    ensures r.Keys == base.Keys + extra.Keys
    ensures forall k :: k in extra ==> r[k] == extra[k]
    ensures forall k :: k in base && k !in extra ==> r[k] == base[k]
  {
    base + extra
  }
}
