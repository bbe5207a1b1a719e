/** JSON values as the ledgers' Python code sees them, with Python's own equality. */
module Json {
  datatype Option<+T> = None | Some(value: T)

  datatype Result<+T> = Ok(value: T) | Err

  datatype Value =
    | Null
    | Bool(b: bool)
    | Num(n: real)
    | Str(s: string)
    | List(items: seq<Value>)
    | Obj(fields: map<string, Value>)

  type Record = map<string, Value>

  /** `rec.get(name)`: an absent field reads as null. */
  function Get(rec: Record, name: string): Value {
    if name in rec then rec[name] else Null
  }

  /** Python's `==`: a boolean equals the number it coerces to, at any depth. */
  predicate Equal(a: Value, b: Value)
    decreases a
  {
    match (a, b)
    case (Bool(x), Num(y)) => y == if x then 1.0 else 0.0
    case (Num(x), Bool(y)) => x == if y then 1.0 else 0.0
    case (List(xs), List(ys)) =>
      |xs| == |ys| && forall i | 0 <= i < |xs| :: Equal(xs[i], ys[i])
    case (Obj(xs), Obj(ys)) =>
      xs.Keys == ys.Keys && forall f | f in xs :: Equal(xs[f], ys[f])
    case _ => a == b
  }

  /** Python's `bool(v)`. */
  predicate Truthy(v: Value) {
    match v
    case Null => false
    case Bool(b) => b
    case Num(n) => n != 0.0
    case Str(s) => s != ""
    case List(items) => items != []
    case Obj(fields) => fields != map[]
  }

  /** Python's `a or b`. */
  function Or(a: Value, b: Value): Value {
    if Truthy(a) then a else b
  }

  /** A value as a dictionary or set key: Python hashes True with 1 and False with 0. */
  function Hashed(v: Value): Value {
    if v.Bool? then Num(if v.b then 1.0 else 0.0) else v
  }

  /** There are six values that are not truthy. */
  lemma FalsyAre(a: Value, b: Value)
    ensures Truthy(a) <==> a !in {Null, Bool(false), Num(0.0), Str(""), List([]), Obj(map[])}
    ensures Or(a, b) == if a in {Null, Bool(false), Num(0.0), Str(""), List([]), Obj(map[])} then b else a
  {
  }

  /** Two values that are no lists and no objects share a place in a dictionary exactly when they
      are equal. */
  lemma HashedIff(a: Value, b: Value)
    requires !a.List? && !a.Obj?
    ensures Hashed(a) == Hashed(b) <==> Equal(a, b)
  {
  }

  /** The value with every boolean replaced by the number it coerces to. */
  function Coerced(v: Value): Value
    decreases v
  {
    match v
    case Bool(b) => Num(if b then 1.0 else 0.0)
    case List(items) => List(seq(|items|, i requires 0 <= i < |items| => Coerced(items[i])))
    case Obj(fields) => Obj(map f | f in fields :: Coerced(fields[f]))
    case _ => v
  }

  /** Python's equality is equality once booleans are numbers. */
  lemma {:induction false} EqualIffCoerced(a: Value, b: Value)
    ensures Equal(a, b) <==> Coerced(a) == Coerced(b)
    decreases a, 1
  {
    match (a, b)
    case (List(xs), List(ys)) => EqualListsIff(xs, ys);
    case (Obj(xs), Obj(ys)) => EqualObjectsIff(xs, ys);
    case _ =>
  }

  lemma {:induction false} EqualListsIff(xs: seq<Value>, ys: seq<Value>)
    ensures Equal(List(xs), List(ys)) <==> Coerced(List(xs)) == Coerced(List(ys))
    decreases List(xs), 0
  {
    var left, right := Coerced(List(xs)).items, Coerced(List(ys)).items;
    if |xs| == |ys| {
      forall i | 0 <= i < |xs| ensures Equal(xs[i], ys[i]) <==> left[i] == right[i] {
        EqualIffCoerced(xs[i], ys[i]);
      }
    }
  }

  lemma {:induction false} EqualObjectsIff(xs: Record, ys: Record)
    ensures Equal(Obj(xs), Obj(ys)) <==> Coerced(Obj(xs)) == Coerced(Obj(ys))
    decreases Obj(xs), 0
  {
    var left, right := Coerced(Obj(xs)).fields, Coerced(Obj(ys)).fields;
    assert left.Keys == xs.Keys && right.Keys == ys.Keys;
    if xs.Keys == ys.Keys {
      forall f | f in xs ensures Equal(xs[f], ys[f]) <==> left[f] == right[f] {
        EqualIffCoerced(xs[f], ys[f]);
      }
    }
  }

  lemma {:induction false} EqualReflexive(v: Value)
    ensures Equal(v, v)
    decreases v
  {
    match v
    case List(items) =>
      forall i | 0 <= i < |items| ensures Equal(items[i], items[i]) {
        EqualReflexive(items[i]);
      }
    case Obj(fields) =>
      forall f | f in fields ensures Equal(fields[f], fields[f]) {
        EqualReflexive(fields[f]);
      }
    case _ =>
  }
}
