/** The values that flow through the query engine: the JSON-like data a stored
    record holds, Python's equality and truthiness on them, and the error
    outcomes of the modelled code. */
module Values {

  datatype Option<+T> = None | Some(value: T)

  /** The exceptions the modelled code raises. `Undetermined` stands for an
      outcome that depends on CPython object identity (`is`), which a value
      model cannot decide; `Unrepresentable` for a Python object that is not
      one of the values below ending up inside a value. */
  datatype Error =
    | TypeError
    | AttributeError
    | KeyError
    | IndexError
    | ValueError
    | Undetermined
    | Unrepresentable

  datatype Result<+T> = Ok(value: T) | Err(error: Error) {
    predicate IsFailure() { Err? }

    function PropagateFailure<U>(): Result<U>
      requires Err?
    {
      Err(error)
    }

    function Extract(): T
      requires Ok?
    {
      value
    }
  }

  /** A Python value as a stored record holds it: `None`, a bool, an int, a
      str, a list or a dict with string keys. */
  datatype Value =
    | Null
    | Bool(b: bool)
    | Int(i: int)
    | Str(s: string)
    | List(items: seq<Value>)
    | Obj(fields: map<string, Value>)

  /** A native record of the store: a dict from field names to values. */
  type Record = map<string, Value>

  /** `bool` is a subclass of `int` in Python: both take part in arithmetic. */
  predicate IsNumber(v: Value) {
    v.Bool? || v.Int?
  }

  function AsInt(v: Value): int
    requires IsNumber(v)
  {
    if v.Bool? then (if v.b then 1 else 0) else v.i
  }

  /** Python's `==` on these values: numbers compare by value (so `True == 1`),
      lists element-wise, dicts on equal key sets with equal values. */
  predicate PyEq(a: Value, b: Value)
    decreases a
  {
    if IsNumber(a) && IsNumber(b) then AsInt(a) == AsInt(b)
    else match (a, b)
      case (Null, Null) => true
      case (Str(s), Str(t)) => s == t
      case (List(xs), List(ys)) =>
        |xs| == |ys| && forall i | 0 <= i < |xs| :: PyEq(xs[i], ys[i])
      case (Obj(m), Obj(n)) =>
        m.Keys == n.Keys && forall k | k in m :: PyEq(m[k], n[k])
      case _ => false
  }

  lemma {:induction false} PyEqReflexive(a: Value)
    ensures PyEq(a, a)
    decreases a
  {
    match a
    case List(xs) =>
      forall i | 0 <= i < |xs| ensures PyEq(xs[i], xs[i]) {
        PyEqReflexive(xs[i]);
      }
    case Obj(m) =>
      forall k | k in m ensures PyEq(m[k], m[k]) {
        PyEqReflexive(m[k]);
      }
    case _ =>
  }

  lemma {:induction false} PyEqSymmetric(a: Value, b: Value)
    requires PyEq(a, b)
    ensures PyEq(b, a)
    decreases a
  {
    if !(IsNumber(a) && IsNumber(b)) {
      match (a, b)
      case (List(xs), List(ys)) =>
        forall i | 0 <= i < |ys| ensures PyEq(ys[i], xs[i]) {
          PyEqSymmetric(xs[i], ys[i]);
        }
      case (Obj(m), Obj(n)) =>
        forall k | k in n ensures PyEq(n[k], m[k]) {
          PyEqSymmetric(m[k], n[k]);
        }
      case _ =>
    }
  }

  /** Python's equality coincides with structural equality on values that
      hold no bools, the only place where two different values compare equal. */
  predicate BoolFree(v: Value)
    decreases v
  {
    match v
    case Bool(_) => false
    case List(xs) => forall i | 0 <= i < |xs| :: BoolFree(xs[i])
    case Obj(m) => forall k | k in m :: BoolFree(m[k])
    case _ => true
  }

  lemma {:induction false} PyEqIsEqualityWithoutBools(a: Value, b: Value)
    requires BoolFree(a) && BoolFree(b)
    ensures PyEq(a, b) <==> a == b
    decreases a
  {
    if PyEq(a, b) {
      match (a, b)
      case (List(xs), List(ys)) =>
        forall i | 0 <= i < |xs| ensures xs[i] == ys[i] {
          PyEqIsEqualityWithoutBools(xs[i], ys[i]);
        }
        assert xs == ys;
      case (Obj(m), Obj(n)) =>
        forall k | k in m ensures m[k] == n[k] {
          PyEqIsEqualityWithoutBools(m[k], n[k]);
        }
        assert m == n;
      case _ =>
    }
    if a == b {
      PyEqReflexive(a);
    }
  }

  /** Python's truth value (`bool(v)`): `None`, `False`, `0` and empty
      containers are false. */
  predicate Truthy(v: Value) {
    match v
    case Null => false
    case Bool(b) => b
    case Int(i) => i != 0
    case Str(s) => |s| > 0
    case List(xs) => |xs| > 0
    case Obj(m) => |m| > 0
  }
}
