/** Runtime values of the virtual machine and the Python semantics it borrows
    (src/virtual_machine.py): equality, truthiness, str(), the binary and unary operators with
    their error texts, and the built-in functions. */
module Values {
  import opened Wrappers
  import opened Text
  import opened Ast

  /** A Python value as the machine sees it. A FunctionCallNode object placed in the constant
      pool compares by identity, which the pool index `id` stands for. */
  datatype Value =
    | IntV(i: int)
    | FloatV(r: real)
    | StrV(s: string)
    | BoolV(b: bool)
    | NoneV
    | NodeV(node: Expr, id: nat)

  function TypeName(v: Value): string
  {
    match v
    case IntV(_) => "int"
    case FloatV(_) => "float"
    case StrV(_) => "str"
    case BoolV(_) => "bool"
    case NoneV => "NoneType"
    case NodeV(_, _) => "FunctionCallNode"
  }

  /** int, bool (a subclass of int) and float. */
  predicate IsNumber(v: Value) { v.IntV? || v.BoolV? || v.FloatV? }

  /** int and bool. */
  predicate IsInteger(v: Value) { v.IntV? || v.BoolV? }

  function IntOf(v: Value): int
    requires IsInteger(v)
  {
    if v.IntV? then v.i else if v.b then 1 else 0
  }

  function RealOf(v: Value): real
    requires IsNumber(v)
  {
    if v.FloatV? then v.r else IntOf(v) as real
  }

  /** Python's ==: numbers compare by value across int, bool and float (so 1 == True and
      0 == False), strings by content, None only with None, objects by identity. */
  predicate PyEq(a: Value, b: Value)
    ensures a == b ==> PyEq(a, b)
    ensures PyEq(a, b) ==> (IsNumber(a) <==> IsNumber(b)) && (a.StrV? <==> b.StrV?) && (a.NodeV? <==> b.NodeV?)
    ensures PyEq(a, b) && a.StrV? ==> a == b
  {
    if IsNumber(a) && IsNumber(b) then RealOf(a) == RealOf(b)
    else if a.StrV? && b.StrV? then a.s == b.s
    else if a.NoneV? && b.NoneV? then true
    else if a.NodeV? && b.NodeV? then a.id == b.id
    else false
  }

  /** Python equality is an equivalence on these values. */
  lemma PyEqEquivalence(a: Value, b: Value, c: Value)
    ensures PyEq(a, a)
    ensures PyEq(a, b) ==> PyEq(b, a)
    ensures PyEq(a, b) && PyEq(b, c) ==> PyEq(a, c)
  {
  }

  /** is_truthy: None, False, a number equal to zero and the empty string are false. */
  predicate Truthy(v: Value)
    ensures !Truthy(v) <==> v == NoneV || v == BoolV(false) || (IsNumber(v) && RealOf(v) == 0.0) || v == StrV("")
  {
    match v
    case NoneV => false
    case BoolV(b) => b
    case IntV(i) => i != 0
    case FloatV(r) => r != 0.0
    case StrV(s) => s != ""
    case NodeV(_, _) => true
  }

  /** The fractional digits of x (0 <= x < 1), at most n of them, without trailing zeros. */
  function FracDigits(x: real, n: nat): string
    requires 0.0 <= x < 1.0
    decreases n
  {
    if n == 0 || x == 0.0 then ""
    else
      var d := (x * 10.0).Floor;
      assert 0 <= d < 10;
      var rest := x * 10.0 - d as real;
      var tail := FracDigits(rest, n - 1);
      [DigitChar(d)] + tail
  }

  /** str() of a float: values below 10^16 print their integral part, a '.' and up to
      sixteen fractional digits ("2.0"); from 10^16 on Python switches to exponent form,
      the shortest mantissa followed by "e+" and the exponent ("1e+16", "1.5e+16"). */
  function FloatStr(r: real): string
  {
    var a := if r < 0.0 then -r else r;
    var whole := a.Floor;
    var frac := a - whole as real;
    (if r < 0.0 then "-" else "") +
      if whole >= ExponentFrom then
        var digits := NatStr(whole);
        Mantissa(TrimZeros(digits)) + "e+" + NatStr(|digits| - 1)
      else
        NatStr(whole) + "." + (if frac == 0.0 then "0" else FracDigits(frac, 16))
  }

  /** Python's str() of a value. A FunctionCallNode prints through its own __str__. */
  function Str(v: Value): (s: string)
    ensures v.IntV? ==> s != [] && (s[0] == '-' <==> v.i < 0)
    ensures v.StrV? ==> s == v.s
  {
    match v
    case IntV(i) => IntStr(i)
    case FloatV(r) => FloatStr(r)
    case StrV(s) => s
    case BoolV(b) => if b then "True" else "False"
    case NoneV => "None"
    case NodeV(e, _) => ExprStr(e)
  }

  /** Python's // on integers: the quotient rounded towards negative infinity. */
  function FloorDiv(a: int, b: int): int
    requires b != 0
  {
    if b < 0 && a % b != 0 then a / b - 1 else a / b
  }

  /** Python's % on integers: the result takes the sign of the divisor, and it is what is
      left of a once b times a // b is taken away. */
  function FloorMod(a: int, b: int): (r: int)
    requires b != 0
    ensures b > 0 ==> 0 <= r < b
    ensures b < 0 ==> b < r <= 0
    ensures b > 0 ==> r == a % b
    ensures a == b * FloorDiv(a, b) + r
  {
    var m := a % b;
    assert a == b * (a / b) + m;
    if b < 0 && m != 0 then
      assert b * (a / b - 1) == b * (a / b) - b;
      m + b
    else m
  }

  /** int() of a float: the integral part, rounded towards zero. */
  function Truncate(x: real): (i: int)
    ensures x >= 0.0 ==> i as real <= x < i as real + 1.0
    ensures x < 0.0 ==> i as real - 1.0 < x <= i as real
  {
    if x >= 0.0 then x.Floor else -((-x).Floor)
  }

  /** Python's % on floats: a - b * floor(a / b). */
  function FloatMod(a: real, b: real): real
    requires b != 0.0
  {
    a - b * (a / b).Floor as real
  }

  /** s repeated n times ("" when n <= 0). */
  function Repeat(s: string, n: int): (r: string)
    ensures n <= 0 ==> r == ""
    ensures n > 0 ==> |r| == |s| * n
    decreases if n > 0 then n else 0
  {
    if n <= 0 then "" else s + Repeat(s, n - 1)
  }

  /** Lexicographic order on strings, by code point. */
  predicate StrLess(a: string, b: string)
  {
    if a == [] then b != []
    else if b == [] then false
    else if a[0] != b[0] then a[0] < b[0]
    else StrLess(a[1..], b[1..])
  }

  /** StrLess is a strict total order. */
  lemma {:induction false} StrLessOrder(a: string, b: string)
    ensures !StrLess(a, a)
    ensures StrLess(a, b) ==> !StrLess(b, a)
    ensures a != b ==> StrLess(a, b) || StrLess(b, a)
  {
    if a != [] {
      StrLessOrder(a[1..], a[1..]);
      if b != [] && a[0] == b[0] {
        StrLessOrder(a[1..], b[1..]);
      }
    }
  }

  function Unsupported(op: string, l: Value, r: Value): string
  {
    "unsupported operand type(s) for " + op + ": '" + TypeName(l) + "' and '" + TypeName(r) + "'"
  }

  function NotSupported(op: string, l: Value, r: Value): string
  {
    "'" + op + "' not supported between instances of '" + TypeName(l) + "' and '" + TypeName(r) + "'"
  }

  function Add(l: Value, r: Value): (res: Result<Value>)
    ensures res.Ok? <==> (IsNumber(l) && IsNumber(r)) || (l.StrV? && r.StrV?)
    ensures res.Ok? && IsNumber(l) ==> IsNumber(res.value) && RealOf(res.value) == RealOf(l) + RealOf(r)
    ensures res.Ok? && IsInteger(l) && IsInteger(r) ==> res.value.IntV?
    ensures res.Ok? && l.StrV? ==> res.value.StrV? && |res.value.s| == |l.s| + |r.s|
    ensures res.Ok? && l.StrV? ==> res.value.s[..|l.s|] == l.s && res.value.s[|l.s|..] == r.s
  {
    if IsInteger(l) && IsInteger(r) then Ok(IntV(IntOf(l) + IntOf(r)))
    else if IsNumber(l) && IsNumber(r) then Ok(FloatV(RealOf(l) + RealOf(r)))
    else if l.StrV? && r.StrV? then Ok(StrV(l.s + r.s))
    else if l.StrV? then Err("can only concatenate str (not \"" + TypeName(r) + "\") to str")
    else Err(Unsupported("+", l, r))
  }

  function Subtract(l: Value, r: Value): Result<Value>
  {
    if IsInteger(l) && IsInteger(r) then Ok(IntV(IntOf(l) - IntOf(r)))
    else if IsNumber(l) && IsNumber(r) then Ok(FloatV(RealOf(l) - RealOf(r)))
    else Err(Unsupported("-", l, r))
  }

  function Multiply(l: Value, r: Value): Result<Value>
  {
    if IsInteger(l) && IsInteger(r) then Ok(IntV(IntOf(l) * IntOf(r)))
    else if IsNumber(l) && IsNumber(r) then Ok(FloatV(RealOf(l) * RealOf(r)))
    else if l.StrV? && IsInteger(r) then Ok(StrV(Repeat(l.s, IntOf(r))))
    else if IsInteger(l) && r.StrV? then Ok(StrV(Repeat(r.s, IntOf(l))))
    else if l.StrV? then Err("can't multiply sequence by non-int of type '" + TypeName(r) + "'")
    else if r.StrV? then Err("can't multiply sequence by non-int of type '" + TypeName(l) + "'")
    else Err(Unsupported("*", l, r))
  }

  /** `/`: the machine's own zero check comes first, then Python's true division. */
  function Divide(l: Value, r: Value): (res: Result<Value>)
    ensures PyEq(r, IntV(0)) ==> res == Err("Division by zero")
    ensures res.Ok? <==> IsNumber(l) && IsNumber(r) && !PyEq(r, IntV(0))
    ensures res.Ok? ==> res.value.FloatV? && res.value.r * RealOf(r) == RealOf(l)
  {
    if PyEq(r, IntV(0)) then Err("Division by zero")
    else if IsNumber(l) && IsNumber(r) then Ok(FloatV(RealOf(l) / RealOf(r)))
    else Err(Unsupported("/", l, r))
  }

  function Modulo(l: Value, r: Value): (res: Result<Value>)
    ensures res.Ok? <==> IsNumber(l) && IsNumber(r) && RealOf(r) != 0.0
    ensures res.Ok? && IsInteger(l) && IsInteger(r) ==>
      res.value.IntV? && IntOf(l) == IntOf(r) * FloorDiv(IntOf(l), IntOf(r)) + res.value.i
    ensures res.Ok? && IsInteger(l) && IsInteger(r) && IntOf(r) > 0 ==> 0 <= res.value.i < IntOf(r)
    ensures res.Ok? && IsInteger(l) && IsInteger(r) && IntOf(r) < 0 ==> IntOf(r) < res.value.i <= 0
    ensures l.StrV? ==> res == Err("not all arguments converted during string formatting")
  {
    if IsInteger(l) && IsInteger(r) then
      if IntOf(r) == 0 then Err("integer modulo by zero") else Ok(IntV(FloorMod(IntOf(l), IntOf(r))))
    else if IsNumber(l) && IsNumber(r) then
      if RealOf(r) == 0.0 then Err("float modulo") else Ok(FloatV(FloatMod(RealOf(l), RealOf(r))))
    else if l.StrV? then Err("not all arguments converted during string formatting")
    else Err(Unsupported("%", l, r))
  }

  predicate IsOrdering(op: string) { op == "<" || op == "<=" || op == ">" || op == ">=" }

  /** `<`, `<=`, `>`, `>=`: numbers by value, strings lexicographically. */
  function Compare(l: Value, op: string, r: Value): (res: Result<Value>)
    requires IsOrdering(op)
    ensures res.Ok? <==> (IsNumber(l) && IsNumber(r)) || (l.StrV? && r.StrV?)
    ensures res.Ok? ==> res.value.BoolV?
    ensures res.Ok? && PyEq(l, r) ==> (res.value.b <==> op == "<=" || op == ">=")
    ensures res.Ok? && l.StrV? && op == "<=" ==> (res.value.b <==> StrLess(l.s, r.s) || l.s == r.s)
    ensures res.Ok? && l.StrV? && op == ">=" ==> (res.value.b <==> StrLess(r.s, l.s) || l.s == r.s)
  {
    StrLessOrder(if l.StrV? then l.s else "", if r.StrV? then r.s else "");
    if IsNumber(l) && IsNumber(r) then
      var a, b := RealOf(l), RealOf(r);
      Ok(BoolV(if op == "<" then a < b else if op == "<=" then a <= b else if op == ">" then a > b else a >= b))
    else if l.StrV? && r.StrV? then
      var a, b := l.s, r.s;
      Ok(BoolV(if op == "<" then StrLess(a, b) else if op == "<=" then !StrLess(b, a)
               else if op == ">" then StrLess(b, a) else !StrLess(a, b)))
    else Err(NotSupported(op, l, r))
  }

  /** The operator symbols apply_binary_op handles. */
  const BinaryOperators: set<string> := {"+", "-", "*", "/", "%", "==", "!=", "<", "<=", ">", ">=", "and", "or"}

  /** The Python operation behind each operator symbol, before apply_binary_op wraps a
      failure in its own message. */
  function Binary(l: Value, op: string, r: Value): (res: Result<Value>)
    ensures res.Ok? ==> op in BinaryOperators
    ensures op !in BinaryOperators ==> res == Err("Unknown binary operator: " + op)
    ensures op in {"==", "!=", "and", "or"} ==> res.Ok? && res.value.BoolV?
    ensures op == "!=" ==> res.value.b == !PyEq(l, r)
  {
    if op == "+" then Add(l, r)
    else if op == "-" then Subtract(l, r)
    else if op == "*" then Multiply(l, r)
    else if op == "/" then Divide(l, r)
    else if op == "%" then Modulo(l, r)
    else if op == "==" then Ok(BoolV(PyEq(l, r)))
    else if op == "!=" then Ok(BoolV(!PyEq(l, r)))
    else if IsOrdering(op) then Compare(l, op, r)
    else if op == "and" then Ok(BoolV(Truthy(l) && Truthy(r)))
    else if op == "or" then Ok(BoolV(Truthy(l) || Truthy(r)))
    else Err("Unknown binary operator: " + op)
  }

  /** The message apply_binary_op raises when the operation fails with message e. */
  function BinaryFailure(l: Value, op: string, r: Value, e: string): string
  {
    "Error in binary operation " + Str(l) + " " + op + " " + Str(r) + ": " + e
  }

  /** The message apply_unary_op raises when the operation fails with message e. */
  function UnaryFailure(op: string, v: Value, e: string): string
  {
    "Error in unary operation " + op + " " + Str(v) + ": " + e
  }

  /** apply_binary_op: every failure, its own division check included, is re-raised with the
      operands in the message. */
  function ApplyBinary(l: Value, op: string, r: Value): (res: Result<Value>)
    ensures res.Err? <==> Binary(l, op, r).Err?
    ensures res.Ok? ==> res == Binary(l, op, r)
    ensures res.Err? ==>
      res.msg == BinaryFailure(l, op, r, Binary(l, op, r).msg)
  {
    match Binary(l, op, r)
    case Ok(v) => Ok(v)
    case Err(e) => Err(BinaryFailure(l, op, r, e))
  }

  /** The Python operation behind a unary operator. */
  function Unary(op: string, v: Value): (res: Result<Value>)
    ensures op == "not" ==> res == Ok(BoolV(!Truthy(v)))
    ensures op == "-" ==> (res.Ok? <==> IsNumber(v))
    ensures op == "-" && res.Ok? ==> IsNumber(res.value) && RealOf(res.value) == -RealOf(v)
    ensures op == "-" && res.Ok? && IsInteger(v) ==> res.value.IntV?
    ensures op != "-" && op != "not" ==> res == Err("Unknown unary operator: " + op)
  {
    if op == "-" then
      if IsInteger(v) then Ok(IntV(-IntOf(v)))
      else if v.FloatV? then Ok(FloatV(-v.r))
      else Err("bad operand type for unary -: '" + TypeName(v) + "'")
    else if op == "not" then Ok(BoolV(!Truthy(v)))
    else Err("Unknown unary operator: " + op)
  }

  /** apply_unary_op, with failures re-raised as "Error in unary operation …". */
  function ApplyUnary(op: string, v: Value): (res: Result<Value>)
    ensures res.Err? <==> Unary(op, v).Err?
    ensures res.Ok? ==> res == Unary(op, v)
    ensures res.Err? ==> res.msg == UnaryFailure(op, v, Unary(op, v).msg)
  {
    match Unary(op, v)
    case Ok(x) => Ok(x)
    case Err(e) => Err(UnaryFailure(op, v, e))
  }

  /** Python's int() of a value, None for a ValueError, Err for a TypeError. */
  function IntCall(v: Value): (res: Result<Option<Value>>)
    ensures res.Ok? <==> IsNumber(v) || v.StrV?
    ensures IsNumber(v) ==> res == Ok(Some(IntV(Truncate(RealOf(v)))))
    ensures v.StrV? ==> res == Ok(if ParseInt(v.s).Some? then Some(IntV(ParseInt(v.s).value)) else None)
  {
    match v
    case IntV(i) => Ok(Some(v))
    case BoolV(_) => Ok(Some(IntV(IntOf(v))))
    case FloatV(r) => Ok(Some(IntV(Truncate(r))))
    case StrV(s) => Ok(match ParseInt(s) case Some(i) => Some(IntV(i)) case None => None)
    case _ => Err("int() argument must be a string, a bytes-like object or a real number, not '" +
      TypeName(v) + "'")
  }

  /** Python's float() of a value, None for a ValueError, Err for a TypeError. */
  function FloatCall(v: Value): (res: Result<Option<Value>>)
    ensures res.Ok? <==> IsNumber(v) || v.StrV?
    ensures IsNumber(v) ==> res == Ok(Some(FloatV(RealOf(v))))
    ensures v.StrV? ==> res == Ok(if ParseDecimal(v.s).Some? then Some(FloatV(ParseDecimal(v.s).value)) else None)
  {
    match v
    case IntV(_) => Ok(Some(FloatV(RealOf(v))))
    case BoolV(_) => Ok(Some(FloatV(RealOf(v))))
    case FloatV(_) => Ok(Some(v))
    case StrV(s) => Ok(match ParseDecimal(s) case Some(r) => Some(FloatV(r)) case None => None)
    case _ => Err("float() argument must be a string or a real number, not '" + TypeName(v) + "'")
  }

  // ---------------------------------------------------------------------------------------
  // Properties

  /** `not` negates truthiness, and `and`/`or` give the boolean and/or of both operands'
      truthiness (both operands are always evaluated). */
  lemma LogicalOperators(l: Value, r: Value)
    ensures ApplyUnary("not", l) == Ok(BoolV(!Truthy(l)))
    ensures ApplyBinary(l, "and", r) == Ok(BoolV(Truthy(l) && Truthy(r)))
    ensures ApplyBinary(l, "or", r) == Ok(BoolV(Truthy(l) || Truthy(r)))
  {
  }

  /** Dividing by anything equal to zero (0, False or 0.0) fails with the division message. */
  lemma DivisionByZero(l: Value, r: Value)
    requires PyEq(r, IntV(0))
    ensures ApplyBinary(l, "/", r) ==
      Err(BinaryFailure(l, "/", r, "Division by zero"))
  {
    assert Binary(l, "/", r) == Err("Division by zero");
  }

  /** Integer arithmetic follows Python: exact sums, and a remainder with the sign of the
      divisor. */
  lemma IntegerArithmetic(a: int, b: int)
    ensures ApplyBinary(IntV(a), "+", IntV(b)) == Ok(IntV(a + b))
    ensures b > 0 ==> ApplyBinary(IntV(a), "%", IntV(b)) == Ok(IntV(a % b))
    ensures b < 0 ==> ApplyBinary(IntV(a), "%", IntV(b)).Ok?
    ensures b < 0 ==> b < ApplyBinary(IntV(a), "%", IntV(b)).value.i <= 0
    ensures b != 0 ==> ApplyBinary(IntV(a), "/", IntV(b)) == Ok(FloatV(a as real / b as real))
  {
  }

  /** The `not` of a localised spelling is not an operator the machine knows. */
  lemma LocalisedNotUnknown(op: string, v: Value)
    requires op != "-" && op != "not"
    ensures ApplyUnary(op, v) ==
      Err(UnaryFailure(op, v, "Unknown unary operator: " + op))
  {
    assert Unary(op, v) == Err("Unknown unary operator: " + op);
  }

  /** Python's int() reads back what str() prints for an integer. */
  lemma IntOfStr(i: int)
    ensures IntCall(StrV(Str(IntV(i)))) == Ok(Some(IntV(i)))
  {
    ParseIntStr(i);
  }

  /** Integral floats below 10^16 print with a trailing ".0", as 4 / 2 prints "2.0". */
  lemma IntegralFloatStr(n: nat)
    requires n < ExponentFrom
    ensures Str(FloatV(n as real)) == NatStr(n) + ".0"
  {
  }

  /** Integral floats from 10^16 on print in exponent form: a mantissa whose digits end in
      a non-zero digit, and an exponent of at least 16, which together give back the value. */
  lemma LargeFloatStr(n: nat)
    requires n >= ExponentFrom
    ensures var t, e := TrimZeros(NatStr(n)), |NatStr(n)| - 1;
      && Str(FloatV(n as real)) == Mantissa(t) + "e+" + NatStr(e)
      && e >= 16
      && t[|t| - 1] != '0'
      && AllDigits(t) && DigitsValue(t) * Pow10(e + 1 - |t|) == n
  {
    LargeFloatText(n);
    ExponentDigits(n);
  }

  /** The text Str gives an integral float from 10^16 on. */
  lemma LargeFloatText(n: nat)
    requires n >= ExponentFrom
    ensures Str(FloatV(n as real)) == Mantissa(TrimZeros(NatStr(n))) + "e+" + NatStr(|NatStr(n)| - 1)
  {
    assert (n as real).Floor == n;
  }

  /** Every power of ten from 10^16 on prints as "1e+" and its exponent, so 10^16 / 1 prints
      "1e+16". */
  lemma PowerOfTenStr(k: nat)
    requires k >= 16
    ensures Str(FloatV(Pow10(k) as real)) == "1e+" + NatStr(k)
  {
    var n := Pow10(k);
    var digits := NatStr(n);
    var m, e := Mantissa(TrimZeros(digits)), NatStr(|digits| - 1);
    assert Str(FloatV(n as real)) == m + "e+" + e by {
      PowerOfTenDigits(k);
      LargeFloatText(n);
    }
    assert m + "e+" + e == "1e+" + NatStr(k) by {
      PowerOfTenDigits(k);
      OneExponent(m, e, NatStr(k));
    }
  }
}
