/** The operator functions a query node applies to its two resolved operands
    (unqdantic/expression.py): Python's `operator` functions and the module's
    own `_neg`, `_not`, `_contains`, `_not_contains`, `_startswith`,
    `_endswith` and `_len`, with the exceptions Python raises on operands of
    the wrong type. */
module Operators {
  import opened Values
  import Strings

  datatype Op =
    | Eq | Ne | Lt | Le | Gt | Ge     // operator.eq, ne, lt, le, gt, ge
    | And | Or | Xor                  // operator.and_, or_, xor
    | Add | Sub                       // operator.add, sub
    | Neg | Not | Len                 // _neg, _not, _len: the right operand is ignored
    | StartsWith | EndsWith           // _startswith, _endswith
    | Contains | NotContains          // _contains, _not_contains
    | Is | IsNot                      // operator.is_, is_not
    | Concat                          // operator.concat

  /** The operators whose result is a truth value. */
  predicate IsPredicate(op: Op) {
    op in {Eq, Ne, Lt, Le, Gt, Ge, Not, StartsWith, EndsWith, Contains, NotContains, Is, IsNot}
  }

  function Sign(x: int): int {
    if x < 0 then -1 else if x > 0 then 1 else 0
  }

  function Min(x: nat, y: nat): nat {
    if x < y then x else y
  }

  /** The first index from `i` on where two lists hold unequal elements, or
      the shorter length when there is none. */
  function FirstDifference(xs: seq<Value>, ys: seq<Value>, i: nat): (j: nat)
    requires i <= Min(|xs|, |ys|)
    ensures i <= j <= Min(|xs|, |ys|)
    ensures forall k | i <= k < j :: PyEq(xs[k], ys[k])
    ensures j < Min(|xs|, |ys|) ==> !PyEq(xs[j], ys[j])
    decreases Min(|xs|, |ys|) - i
  {
    if i == Min(|xs|, |ys|) || !PyEq(xs[i], ys[i]) then i
    else FirstDifference(xs, ys, i + 1)
  }

  /** The three-way comparison behind `<`, `<=`, `>` and `>=`: numbers by
      value, strings by code point, lists at their first unequal elements
      (or by length when one is a prefix of the other); anything else is not
      orderable and raises `TypeError`. */
  function Compare(a: Value, b: Value): (r: Result<int>)
    ensures r.Ok? ==> -1 <= r.value <= 1
    ensures r.Ok? ==> (r.value == 0 <==> PyEq(a, b))
    ensures r.Err? ==> r.error == TypeError
    decreases a
  {
    if IsNumber(a) && IsNumber(b) then Ok(Sign(AsInt(a) - AsInt(b)))
    else if a.Str? && b.Str? then Ok(Strings.Compare(a.s, b.s))
    else if a.List? && b.List? then
      var j := FirstDifference(a.items, b.items, 0);
      if j == Min(|a.items|, |b.items|) then Ok(Sign(|a.items| - |b.items|))
      else Compare(a.items[j], b.items[j])
    else Err(TypeError)
  }

  lemma {:induction false} FirstDifferenceSymmetric(xs: seq<Value>, ys: seq<Value>, i: nat)
    requires i <= Min(|xs|, |ys|)
    ensures FirstDifference(ys, xs, i) == FirstDifference(xs, ys, i)
    decreases Min(|xs|, |ys|) - i
  {
    if i < Min(|xs|, |ys|) {
      if PyEq(xs[i], ys[i]) {
        PyEqSymmetric(xs[i], ys[i]);
        FirstDifferenceSymmetric(xs, ys, i + 1);
      } else if PyEq(ys[i], xs[i]) {
        PyEqSymmetric(ys[i], xs[i]);
      }
    }
  }

  /** Swapping the operands negates the comparison, and an unorderable pair
      is unorderable either way round. */
  lemma {:induction false} CompareAntisymmetric(a: Value, b: Value)
    ensures Compare(b, a) == match Compare(a, b) case Ok(c) => Ok(-c) case Err(e) => Err(e)
    decreases a
  {
    if IsNumber(a) && IsNumber(b) {
    } else if a.Str? && b.Str? {
      Strings.CompareAntisymmetric(a.s, b.s);
    } else if a.List? && b.List? {
      FirstDifferenceSymmetric(a.items, b.items, 0);
      var j := FirstDifference(a.items, b.items, 0);
      if j < Min(|a.items|, |b.items|) {
        CompareAntisymmetric(a.items[j], b.items[j]);
      }
    }
  }

  // ---------------------------------------------------------------------------
  // Bitwise operators on Python's unbounded two's-complement integers
  // ---------------------------------------------------------------------------

  function NatAnd(a: nat, b: nat): nat
    decreases a
  {
    if a == 0 || b == 0 then 0
    else 2 * NatAnd(a / 2, b / 2) + (if a % 2 == 1 && b % 2 == 1 then 1 else 0)
  }

  function NatOr(a: nat, b: nat): nat
    decreases a + b
  {
    if a == 0 then b
    else if b == 0 then a
    else 2 * NatOr(a / 2, b / 2) + (if a % 2 == 1 || b % 2 == 1 then 1 else 0)
  }

  function NatXor(a: nat, b: nat): nat
    decreases a + b
  {
    if a == 0 then b
    else if b == 0 then a
    else 2 * NatXor(a / 2, b / 2) + (if a % 2 != b % 2 then 1 else 0)
  }

  /** `a & ~b` on naturals. */
  function NatAndNot(a: nat, b: nat): nat
    decreases a
  {
    if a == 0 then 0
    else if b == 0 then a
    else 2 * NatAndNot(a / 2, b / 2) + (if a % 2 == 1 && b % 2 == 0 then 1 else 0)
  }

  // A negative x is ~x' with x' = -x - 1 >= 0; the identities
  // ~x' & b == b & ~x', ~x' | b == ~(x' & ~b), ~x' ^ b == ~(x' ^ b),
  // ~x' & ~y' == ~(x' | y') and ~x' | ~y' == ~(x' & y') reduce every case
  // to naturals.

  /** Python's `~x`. */
  function Complement(x: int): int {
    -x - 1
  }

  function IntAnd(a: int, b: int): int {
    if a >= 0 && b >= 0 then NatAnd(a, b)
    else if b >= 0 then NatAndNot(b, -a - 1)
    else if a >= 0 then NatAndNot(a, -b - 1)
    else Complement(NatOr(-a - 1, -b - 1))
  }

  function IntOr(a: int, b: int): int {
    if a >= 0 && b >= 0 then NatOr(a, b)
    else if b >= 0 then Complement(NatAndNot(-a - 1, b))
    else if a >= 0 then Complement(NatAndNot(-b - 1, a))
    else Complement(NatAnd(-a - 1, -b - 1))
  }

  function IntXor(a: int, b: int): int {
    if a >= 0 && b >= 0 then NatXor(a, b)
    else if b >= 0 then Complement(NatXor(-a - 1, b))
    else if a >= 0 then Complement(NatXor(a, -b - 1))
    else NatXor(-a - 1, -b - 1)
  }

  function BoolToInt(x: bool): int {
    if x then 1 else 0
  }

  /** `bool` is an `int` subclass: on 0 and 1 the integer `&`, `|` and `^`
      agree with the boolean ones, so mixing the two kinds gives the same
      truth value. */
  lemma BitwiseOnBools(x: bool, y: bool)
    ensures IntAnd(BoolToInt(x), BoolToInt(y)) == BoolToInt(x && y)
    ensures IntOr(BoolToInt(x), BoolToInt(y)) == BoolToInt(x || y)
    ensures IntXor(BoolToInt(x), BoolToInt(y)) == BoolToInt(x != y)
  {
  }

  // ---------------------------------------------------------------------------
  // Membership and identity
  // ---------------------------------------------------------------------------

  /** `a in b`: a substring test on strings, an equality scan on lists, a key
      test on dicts (whose keys are strings, and which refuse the unhashable
      lists and dicts); any other container raises `TypeError`. */
  function Membership(a: Value, b: Value): (r: Result<bool>)
    ensures r.Err? ==> r.error == TypeError
  {
    match b
    case Str(t) => if a.Str? then Ok(Strings.Substring(a.s, t)) else Err(TypeError)
    case List(xs) => Ok(exists i | 0 <= i < |xs| :: PyEq(xs[i], a))
    case Obj(m) => if a.List? || a.Obj? then Err(TypeError) else Ok(a.Str? && a.s in m)
    case _ => Err(TypeError)
  }

  /** `None`, `True` and `False` are the only objects whose identity follows
      from their value. */
  predicate IsSingleton(v: Value) {
    v.Null? || v.Bool?
  }

  /** `a is b`: decided when a singleton takes part; between two other
      objects it depends on how the values were created. */
  function Identity(a: Value, b: Value): (r: Result<bool>)
    ensures r.Ok? <==> IsSingleton(a) || IsSingleton(b)
  {
    if IsSingleton(a) || IsSingleton(b) then Ok(a == b) else Err(Undetermined)
  }

  // ---------------------------------------------------------------------------
  // Applying an operator
  // ---------------------------------------------------------------------------

  /** `operator(left, right)` for the operator of a query node. */
  function Apply(op: Op, a: Value, b: Value): (r: Result<Value>)
    ensures op in {Eq, Ne, Not} ==> r.Ok?
    ensures r.Ok? && IsPredicate(op) ==> r.value.Bool?
  {
    match op
    case Eq => Ok(Bool(PyEq(a, b)))
    case Ne => Ok(Bool(!PyEq(a, b)))
    case Lt => var c :- Compare(a, b); Ok(Bool(c < 0))
    case Le => var c :- Compare(a, b); Ok(Bool(c <= 0))
    case Gt => var c :- Compare(a, b); Ok(Bool(c > 0))
    case Ge => var c :- Compare(a, b); Ok(Bool(c >= 0))
    case And =>
      if a.Bool? && b.Bool? then Ok(Bool(a.b && b.b))
      else if IsNumber(a) && IsNumber(b) then Ok(Int(IntAnd(AsInt(a), AsInt(b))))
      else Err(TypeError)
    case Or =>
      if a.Bool? && b.Bool? then Ok(Bool(a.b || b.b))
      else if IsNumber(a) && IsNumber(b) then Ok(Int(IntOr(AsInt(a), AsInt(b))))
      else if a.Obj? && b.Obj? then Ok(Obj(a.fields + b.fields))
      else Err(TypeError)
    case Xor =>
      if a.Bool? && b.Bool? then Ok(Bool(a.b != b.b))
      else if IsNumber(a) && IsNumber(b) then Ok(Int(IntXor(AsInt(a), AsInt(b))))
      else Err(TypeError)
    case Add =>
      if IsNumber(a) && IsNumber(b) then Ok(Int(AsInt(a) + AsInt(b)))
      else if a.Str? && b.Str? then Ok(Str(a.s + b.s))
      else if a.List? && b.List? then Ok(List(a.items + b.items))
      else Err(TypeError)
    case Sub =>
      if IsNumber(a) && IsNumber(b) then Ok(Int(AsInt(a) - AsInt(b))) else Err(TypeError)
    case Neg =>
      if IsNumber(a) then Ok(Int(-AsInt(a))) else Err(TypeError)
    case Not => Ok(Bool(!Truthy(a)))
    case Len =>
      (match a
       case Str(s) => Ok(Int(|s|))
       case List(xs) => Ok(Int(|xs|))
       case Obj(m) => Ok(Int(|m|))
       case _ => Err(TypeError))
    case StartsWith =>
      if !a.Str? then Err(AttributeError)
      else if !b.Str? then Err(TypeError)
      else Ok(Bool(Strings.StartsWith(a.s, b.s)))
    case EndsWith =>
      if !a.Str? then Err(AttributeError)
      else if !b.Str? then Err(TypeError)
      else Ok(Bool(Strings.EndsWith(a.s, b.s)))
    case Contains => var c :- Membership(a, b); Ok(Bool(c))
    case NotContains => var c :- Membership(a, b); Ok(Bool(!c))
    case Is => var c :- Identity(a, b); Ok(Bool(c))
    case IsNot => var c :- Identity(a, b); Ok(Bool(!c))
    case Concat =>
      if a.Str? && b.Str? then Ok(Str(a.s + b.s))
      else if a.List? && b.List? then Ok(List(a.items + b.items))
      else Err(TypeError)
  }

  /** `a < b` is `b > a` and `a <= b` is `b >= a`, errors included. */
  lemma OrderingConverse(a: Value, b: Value)
    ensures Apply(Lt, a, b) == Apply(Gt, b, a)
    ensures Apply(Le, a, b) == Apply(Ge, b, a)
  {
    CompareAntisymmetric(a, b);
  }

  /** On any pair of values exactly one of `<`, `==` and `>` holds, unless the
      pair is not orderable. */
  lemma Trichotomy(a: Value, b: Value)
    requires Compare(a, b).Ok?
    ensures Apply(Lt, a, b).Ok? && Apply(Gt, a, b).Ok?
    ensures (if Apply(Lt, a, b).value.b then 1 else 0)
          + (if PyEq(a, b) then 1 else 0)
          + (if Apply(Gt, a, b).value.b then 1 else 0) == 1
  {
  }

  /** `_not_contains` is the negation of `_contains`, and both raise on the
      same operands. */
  lemma NotContainsNegates(a: Value, b: Value)
    ensures Apply(Contains, a, b).Ok? <==> Apply(NotContains, a, b).Ok?
    ensures Apply(Contains, a, b).Ok? ==>
      Apply(NotContains, a, b).value == Bool(!Apply(Contains, a, b).value.b)
  {
  }
}
