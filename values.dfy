/**
 * The runtime values of the first interpreter generation (builtins.js):
 * integers, reals and vectors, with their arithmetic, element access and
 * interpolation. Booleans and strings are values of the later generations;
 * they have none of these methods, so calling one on them is a TypeError.
 */
module Values {
  import opened Wrappers

  datatype Value =
    | Integer(i: int)
    | Real(r: real)
    | Boolean(b: bool)
    | String(s: string)
    | Vector(elements: seq<Value>)

  /** Why an operation threw: the string '...', or JavaScript's own errors. */
  datatype Throw =
    | Mismatch        // `throw '...'`: the operand is not a number
    | TypeError       // a method called on undefined, on a bare number or on a value without it
    | ReferenceError  // an identifier with no binding in scope

  /**
   * What an operation gives back. `NotFinite` stands for an IEEE infinity or
   * NaN (a division by zero, a vector where a number was expected); the
   * model does not follow such a number any further.
   */
  datatype Outcome = Returned(value: Value) | NotFinite | Thrown(reason: Throw)

  datatype Op = Add | Subtract | Multiply | Divide | Remainder

  predicate IsNumber(v: Value)
  {
    v.Integer? || v.Real?
  }

  /** The JavaScript number a numeric value holds. */
  function Num(v: Value): real
    requires IsNumber(v)
  {
    if v.Integer? then v.i as real else v.r
  }

  function Abs(x: int): nat
  {
    if x < 0 then -x else x
  }

  /** `Math.trunc`: rounds toward zero. */
  function Trunc(x: real): (r: int)
    ensures x >= 0.0 ==> 0 <= r && r as real <= x < r as real + 1.0
    ensures x < 0.0 ==> r <= 0 && r as real - 1.0 < x <= r as real
  {
    if x >= 0.0 then x.Floor else -((-x).Floor)
  }

  /** JavaScript's `%` on numbers: the remainder of the quotient truncated toward zero. */
  function RealRemainder(x: real, y: real): (r: real)
    requires y != 0.0
    ensures x == (Trunc(x / y) as real) * y + r
    ensures x >= 0.0 ==> 0.0 <= r
    ensures x < 0.0 ==> r <= 0.0
    ensures -RealAbs(y) < r < RealAbs(y)
  {
    RemainderBounds(x, y);
    x - y * (Trunc(x / y) as real)
  }

  function RealAbs(x: real): real
  {
    if x < 0.0 then -x else x
  }

  /**
   * The remainder is `y` times the fraction that truncation cuts off the
   * quotient, which lies in (-1, 1) and has the sign of the quotient.
   */
  lemma RemainderBounds(x: real, y: real)
    requires y != 0.0
    ensures var r := x - y * (Trunc(x / y) as real);
            (x >= 0.0 ==> 0.0 <= r) && (x < 0.0 ==> r <= 0.0) && -RealAbs(y) < r < RealAbs(y)
  {
    var q := x / y;
    var t := Trunc(q) as real;
    var f := q - t;
    assert x == y * q;
    assert x - y * t == y * f by {
      assert y * q - y * t == y * (q - t);
    }
    ScaledFraction(y, q, f);
  }

  /** `y * f` for a fraction `f` of the quotient's sign, against `y * q`. */
  lemma ScaledFraction(y: real, q: real, f: real)
    requires y != 0.0
    requires q >= 0.0 ==> 0.0 <= f < 1.0
    requires q < 0.0 ==> -1.0 < f <= 0.0
    requires q == 0.0 ==> f == 0.0
    ensures (y * q >= 0.0 ==> 0.0 <= y * f) && (y * q < 0.0 ==> y * f <= 0.0)
    ensures -RealAbs(y) < y * f < RealAbs(y)
  {
    var ay := RealAbs(y);
    var g := if f < 0.0 then -f else f;
    var p := if q < 0.0 then -q else q;
    assert 0.0 <= g < 1.0;
    ProductNonNegative(ay, g);
    ProductPositive(ay, 1.0 - g);
    assert ay * (1.0 - g) == ay - ay * g;
    ProductNonNegative(ay, p);
    // y * f and y * q are ay * g and ay * p, each up to the sign of y times that of q
    if y > 0.0 && q >= 0.0 {
      assert y * f == ay * g && y * q == ay * p;
    } else if y > 0.0 {
      assert y * f == -(ay * g) && y * q == -(ay * p);
      if p > 0.0 { ProductPositive(ay, p); }
    } else if q >= 0.0 {
      assert y * f == -(ay * g) && y * q == -(ay * p);
      if q > 0.0 { ProductPositive(ay, p); }
    } else {
      assert y * f == ay * g && y * q == ay * p;
    }
  }

  /** JavaScript's `%` on two integral numbers, an integral number again. */
  function IntRemainder(x: int, y: int): (r: int)
    requires y != 0
    ensures r == (if x >= 0 then Abs(x) % Abs(y) else -(Abs(x) % Abs(y)))
    ensures Abs(r) < Abs(y)
  {
    TruncatedRemainder(x, y);
    x - y * Trunc(x as real / y as real)
  }

  /** The mathematical operation on two finite numbers; `None` when the quotient is not finite. */
  function Apply(op: Op, x: real, y: real): (r: Option<real>)
    ensures r.None? <==> (op.Divide? || op.Remainder?) && y == 0.0
    ensures op.Divide? && r.Some? ==> r.value * y == x
  {
    match op
    case Add => Some(x + y)
    case Subtract => Some(x - y)
    case Multiply => Some(x * y)
    case Divide => if y == 0.0 then None else Some(x / y)
    case Remainder => if y == 0.0 then None else Some(RealRemainder(x, y))
  }

  function Finish(result: Option<real>): Outcome
  {
    match result
    case None => NotFinite
    case Some(x) => Returned(Real(x))
  }

  /**
   * `add`, `subtract`, `multiply`, `divide` and `remainder` of an Integer or
   * Real receiver, with the receiver's own number as the left operand. Two
   * integers stay an Integer (a quotient is truncated); a Real on either
   * side makes a Real; any other operand throws '...'.
   */
  function Arithmetic(op: Op, receiver: Value, other: Value): (r: Outcome)
    ensures !IsNumber(receiver) ==> r == Thrown(TypeError)
    ensures IsNumber(receiver) && !IsNumber(other) ==> r == Thrown(Mismatch)
    ensures r.Returned? ==> IsNumber(r.value) && (r.value.Integer? <==> receiver.Integer? && other.Integer?)
  {
    match receiver
    case Integer(x) =>
      (match other
      case Integer(y) =>
        (match op
         case Add => Returned(Integer(x + y))
         case Subtract => Returned(Integer(x - y))
         case Multiply => Returned(Integer(x * y))
         case Divide => if y == 0 then NotFinite else Returned(Integer(Trunc(x as real / y as real)))
         case Remainder => if y == 0 then NotFinite else Returned(Integer(IntRemainder(x, y))))
      case Real(y) => Finish(Apply(op, x as real, y))
      case _ => Thrown(Mismatch))
    case Real(x) =>
      if IsNumber(other) then Finish(Apply(op, x, Num(other))) else Thrown(Mismatch)
    case _ => Thrown(TypeError)
  }

  /**
   * The same methods as builtins.js writes them: each calls a free `get()`
   * instead of `this.get()`. The operand checks run first, so a non-numeric
   * operand still throws '...', but every numeric one reaches `get()` and
   * throws a ReferenceError.
   */
  function ArithmeticAsWritten(op: Op, receiver: Value, other: Value): (r: Outcome)
    ensures r.Thrown?
  {
    if !IsNumber(receiver) then Thrown(TypeError)
    else if !IsNumber(other) then Thrown(Mismatch)
    else Thrown(ReferenceError)
  }

  /** As written, `1 + 2` throws where the evidently intended methods give 3. */
  lemma AsWrittenAdditionThrows()
    ensures ArithmeticAsWritten(Add, Integer(1), Integer(2)) == Thrown(ReferenceError)
    ensures Arithmetic(Add, Integer(1), Integer(2)) == Returned(Integer(3))
  {
  }

  /** The two agree exactly where no number meets `get()`. */
  lemma AsWrittenAgreesOffNumbers(op: Op, receiver: Value, other: Value)
    ensures ArithmeticAsWritten(op, receiver, other) == Arithmetic(op, receiver, other)
            <==> !(IsNumber(receiver) && IsNumber(other))
  {
    if IsNumber(receiver) && IsNumber(other) {
      assert !Arithmetic(op, receiver, other).Thrown?;
    }
  }

  /**
   * Apart from the integer quotient and remainder, every finite result is
   * the exact mathematical operation on the two numbers.
   */
  lemma ArithmeticIsTheOperation(op: Op, receiver: Value, other: Value)
    requires IsNumber(receiver) && IsNumber(other)
    requires !(receiver.Integer? && other.Integer? && (op.Divide? || op.Remainder?))
    ensures Arithmetic(op, receiver, other).Returned? <==> Apply(op, Num(receiver), Num(other)).Some?
    ensures Arithmetic(op, receiver, other).Returned? ==>
              Num(Arithmetic(op, receiver, other).value) == Apply(op, Num(receiver), Num(other)).value
  {
  }

  // ---------------------------------------------------------------------------
  // Truncated division

  lemma {:induction false} FloorOfQuotient(n: nat, d: nat)
    requires d > 0
    ensures ((n as real) / (d as real)).Floor == n / d
  {
    var q := n / d;
    var m := n % d;
    assert n == q * d + m;
    assert (n as real) == (q as real) * (d as real) + (m as real);
    var frac := (m as real) / (d as real);
    assert 0.0 <= frac < 1.0;
    assert (n as real) / (d as real) == (q as real) + frac;
  }

  /** The integer quotient rounds toward zero: it is the quotient of the magnitudes, signed. */
  lemma {:induction false} TruncatedQuotient(x: int, y: int)
    requires y != 0
    ensures Trunc(x as real / y as real) == (if (x >= 0) == (y > 0) || x == 0 then Abs(x) / Abs(y) else -(Abs(x) / Abs(y)))
  {
    var ax, ay := Abs(x) as real, Abs(y) as real;
    FloorOfQuotient(Abs(x), Abs(y));
    if x >= 0 && y > 0 {
    } else if x < 0 && y < 0 {
      assert x as real / y as real == ax / ay;
    } else if x == 0 {
      assert x as real / y as real == 0.0;
    } else {
      assert x as real / y as real == -(ax / ay);
      assert ax / ay > 0.0;
    }
  }

  /**
   * What is left after the truncated quotient takes the sign of the
   * dividend and is smaller in magnitude than the divisor; in Dafny's
   * Euclidean terms it is the remainder of the magnitudes, carrying the
   * dividend's sign.
   */
  lemma TruncatedRemainder(x: int, y: int)
    requires y != 0
    ensures x - y * Trunc(x as real / y as real) == (if x >= 0 then Abs(x) % Abs(y) else -(Abs(x) % Abs(y)))
  {
    TruncatedQuotient(x, y);
    var q, m := Abs(x) / Abs(y), Abs(x) % Abs(y);
    assert Abs(x) == q * Abs(y) + m;
    var t := Trunc(x as real / y as real);
    if x >= 0 && y > 0 {
      assert t == q;
    } else if x < 0 && y < 0 {
      assert t == q && x + Abs(x) == 0 && y + Abs(y) == 0;
      assert y * t == -(q * Abs(y));
    } else if x == 0 {
      assert t == 0 && m == 0;
    } else if x > 0 {
      assert t == -q && y + Abs(y) == 0;
      assert y * t == q * Abs(y);
    } else {
      assert t == -q && x + Abs(x) == 0 && y == Abs(y);
      assert y * t == -(q * Abs(y));
    }
  }

  lemma DivisionExamples()
    ensures Arithmetic(Divide, Integer(7), Integer(2)) == Returned(Integer(3))
    ensures Arithmetic(Divide, Integer(-7), Integer(2)) == Returned(Integer(-3))
    ensures Arithmetic(Remainder, Integer(-7), Integer(2)) == Returned(Integer(-1))
    ensures Arithmetic(Remainder, Integer(7), Integer(-2)) == Returned(Integer(1))
    ensures Arithmetic(Divide, Integer(1), Integer(0)) == NotFinite
  {
    TruncatedQuotient(7, 2);
    TruncatedQuotient(-7, 2);
    TruncatedQuotient(7, -2);
  }

  // ---------------------------------------------------------------------------
  // Element access and interpolation

  /** `Vector.get(i)`: the element at `i`, or undefined outside the vector. */
  function VectorGet(elements: seq<Value>, i: int): (r: Option<Value>)
    ensures r.Some? <==> 0 <= i < |elements|
    ensures r.Some? ==> r.value == elements[i]
  {
    if 0 <= i < |elements| then Some(elements[i]) else None
  }

  /** What can stand as the `other` argument of `interpolate`: a value, a bare number, or undefined. */
  datatype Operand = Undefined | Number(x: real) | Val(v: Value)

  /**
   * `other.get(i)` as a vector's interpolation evaluates it: a vector gives
   * its element (undefined past its end), a number value its bare number
   * (that `get` ignores its index); undefined, a bare number and a value
   * without `get` throw.
   */
  function OperandAt(other: Operand, i: nat): (r: Result<Operand, Throw>)
    ensures r.Ok? <==> other.Val? && (IsNumber(other.v) || other.v.Vector?)
  {
    match other
    case Val(Vector(fs)) => Ok(match VectorGet(fs, i) case Some(f) => Val(f) case None => Undefined)
    case Val(Integer(b)) => Ok(Number(b as real))
    case Val(Real(b)) => Ok(Number(b))
    case _ => Err(TypeError)
  }

  /** A number's `interpolate`: the Real `a + proportion * (b - a)`. */
  function InterpolateNumber(a: real, other: Operand, proportion: real): (r: Outcome)
    ensures r.Returned? <==> other.Val? && IsNumber(other.v)
    ensures r.Returned? && proportion == 0.0 ==> r.value == Real(a)
    ensures r.Returned? && proportion == 1.0 ==> r.value == Real(Num(other.v))
  {
    match other
    case Val(Integer(b)) =>
      assert proportion == 0.0 ==> proportion * (b as real - a) == 0.0;
      assert proportion == 1.0 ==> proportion * (b as real - a) == b as real - a;
      Returned(Real(a + proportion * (b as real - a)))
    case Val(Real(b)) => Returned(Real(a + proportion * (b - a)))
    case Val(Vector(_)) => NotFinite  // `get()` with no index reads undefined; arithmetic on it is NaN
    case _ => Thrown(TypeError)
  }

  /** `interpolate` of any value toward `other` by `proportion`. */
  function Interpolate(receiver: Value, other: Operand, proportion: real): (r: Outcome)
    ensures r.Returned? && receiver.Vector? ==> r.value.Vector? && |r.value.elements| == |receiver.elements|
    ensures r.Returned? && IsNumber(receiver) ==> r.value.Real?
    decreases receiver, 1
  {
    match receiver
    case Integer(a) => InterpolateNumber(a as real, other, proportion)
    case Real(a) => InterpolateNumber(a, other, proportion)
    case Vector(_) => InterpolateFrom(receiver, 0, other, proportion)
    case _ => Thrown(TypeError)
  }

  /**
   * The mapping over a vector's elements from index `i` on, in order: the
   * first element that throws decides the outcome; otherwise a non-finite
   * element makes the whole non-finite.
   */
  function InterpolateFrom(receiver: Value, i: nat, other: Operand, proportion: real): (r: Outcome)
    requires receiver.Vector? && i <= |receiver.elements|
    ensures r.Returned? ==> r.value.Vector? && |r.value.elements| == |receiver.elements| - i
    decreases receiver, 0, |receiver.elements| - i
  {
    if i == |receiver.elements| then Returned(Vector([]))
    else
      var first :=
        match OperandAt(other, i)
        case Err(t) => Thrown(t)
        case Ok(arg) => Interpolate(receiver.elements[i], arg, proportion);
      if first.Thrown? then first
      else
        var rest := InterpolateFrom(receiver, i + 1, other, proportion);
        if rest.Thrown? || rest.NotFinite? then rest
        else if first.NotFinite? then NotFinite
        else Returned(Vector([first.value] + rest.value.elements))
  }

  /** The straight line from `a` to `b`: starts at `a`, ends at `b`, stays between them. */
  lemma InterpolateNumberLine(receiver: Value, other: Value, proportion: real)
    requires IsNumber(receiver) && IsNumber(other)
    ensures Interpolate(receiver, Val(other), proportion).Returned?
    ensures Interpolate(receiver, Val(other), 0.0) == Returned(Real(Num(receiver)))
    ensures Interpolate(receiver, Val(other), 1.0) == Returned(Real(Num(other)))
    ensures 0.0 <= proportion <= 1.0 && Num(receiver) <= Num(other) ==>
              Num(receiver) <= Interpolate(receiver, Val(other), proportion).value.r <= Num(other)
  {
    var a, b := Num(receiver), Num(other);
    InterpolateNumbers(receiver, other, proportion);
    InterpolateNumbers(receiver, other, 0.0);
    InterpolateNumbers(receiver, other, 1.0);
    if 0.0 <= proportion <= 1.0 && a <= b {
      ProductNonNegative(proportion, b - a);
      ProductNonNegative(1.0 - proportion, b - a);
      assert (1.0 - proportion) * (b - a) == (b - a) - proportion * (b - a);
    }
  }

  /** Between two numbers, `interpolate` is the Real `a + proportion * (b - a)`. */
  lemma InterpolateNumbers(receiver: Value, other: Value, proportion: real)
    requires IsNumber(receiver) && IsNumber(other)
    ensures Interpolate(receiver, Val(other), proportion) ==
            Returned(Real(Num(receiver) + proportion * (Num(other) - Num(receiver))))
  {
    var a := Num(receiver);
    assert Interpolate(receiver, Val(other), proportion) == InterpolateNumber(a, Val(other), proportion);
    match other
    case Integer(b) =>
      assert Num(other) == b as real;
      assert InterpolateNumber(a, Val(Integer(b)), proportion) == Returned(Real(a + proportion * (b as real - a)));
    case Real(b) =>
      assert Num(other) == b;
      assert InterpolateNumber(a, Val(Real(b)), proportion) == Returned(Real(a + proportion * (b - a)));
  }

  lemma ProductPositive(x: real, y: real)
    requires x > 0.0 && y > 0.0
    ensures x * y > 0.0
  {
  }

  lemma ProductNonNegative(x: real, y: real)
    requires x >= 0.0 && y >= 0.0
    ensures x * y >= 0.0
  {
  }

  predicate AllNumbers(s: seq<Value>)
  {
    forall k :: 0 <= k < |s| ==> IsNumber(s[k])
  }

  /**
   * Toward a vector at least as long, a vector interpolates element by
   * element: the mapping from `i` on returns exactly when every element's
   * own interpolation toward its partner returns, and then holds those
   * results in order.
   */
  lemma {:induction false} InterpolateFromElementwise(es: seq<Value>, fs: seq<Value>, i: nat, proportion: real)
    requires |es| <= |fs| && i <= |es|
    ensures InterpolateFrom(Vector(es), i, Val(Vector(fs)), proportion).Returned? <==>
              forall k :: i <= k < |es| ==> Interpolate(es[k], Val(fs[k]), proportion).Returned?
    ensures InterpolateFrom(Vector(es), i, Val(Vector(fs)), proportion).Returned? ==>
              forall k :: i <= k < |es| ==>
                InterpolateFrom(Vector(es), i, Val(Vector(fs)), proportion).value.elements[k - i]
                == Interpolate(es[k], Val(fs[k]), proportion).value
    decreases |es| - i
  {
    if i < |es| {
      InterpolateFromElementwise(es, fs, i + 1, proportion);
      assert OperandAt(Val(Vector(fs)), i) == Ok(Val(fs[i]));
      var r := InterpolateFrom(Vector(es), i, Val(Vector(fs)), proportion);
      var rest := InterpolateFrom(Vector(es), i + 1, Val(Vector(fs)), proportion);
      if r.Returned? {
        forall k | i <= k < |es|
          ensures r.value.elements[k - i] == Interpolate(es[k], Val(fs[k]), proportion).value
        {
          if k > i {
            assert r.value.elements[k - i] == rest.value.elements[k - (i + 1)];
          }
        }
      }
    }
  }

  /**
   * Two numeric vectors of the same length interpolate element by element;
   * the result is a vector of Reals.
   */
  lemma InterpolateVectorsElementwise(es: seq<Value>, fs: seq<Value>, proportion: real)
    requires |es| == |fs| && AllNumbers(es) && AllNumbers(fs)
    ensures Interpolate(Vector(es), Val(Vector(fs)), proportion).Returned?
    ensures forall k :: 0 <= k < |es| ==>
              Interpolate(Vector(es), Val(Vector(fs)), proportion).value.elements[k]
              == Real(Num(es[k]) + proportion * (Num(fs[k]) - Num(es[k])))
  {
    forall k | 0 <= k < |es|
      ensures Interpolate(es[k], Val(fs[k]), proportion) == Returned(Real(Num(es[k]) + proportion * (Num(fs[k]) - Num(es[k]))))
    {
      InterpolateNumbers(es[k], fs[k], proportion);
    }
    InterpolateFromElementwise(es, fs, 0, proportion);
  }

  /** A shorter `other` leaves a numeric element without a partner: `undefined.get()` throws. */
  lemma {:induction false} InterpolateShorterVectorThrows(es: seq<Value>, fs: seq<Value>, i: nat, proportion: real)
    requires |fs| < |es| && AllNumbers(es) && AllNumbers(fs) && i <= |fs|
    ensures InterpolateFrom(Vector(es), i, Val(Vector(fs)), proportion) == Thrown(TypeError)
    decreases |fs| - i
  {
    if i < |fs| {
      InterpolateShorterVectorThrows(es, fs, i + 1, proportion);
    }
  }

  lemma InterpolateVectorExample()
    ensures Interpolate(Vector([Integer(0), Integer(0)]), Val(Vector([Integer(10), Integer(20)])), 0.5)
            == Returned(Vector([Real(5.0), Real(10.0)]))
  {
  }
}
