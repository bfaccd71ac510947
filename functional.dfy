/** The functor library of clbolt: seven operators (five binary, two unary), each
    evaluated here at its `int` instance, and the registry that gives every
    operator a type name and an OpenCL source string for its `float`, `int` and
    `double` instances. */
module Functional {
  import opened Strings

  // ---------------------------------------------------------------------------
  // The operators, at T = int (unbounded: no 32-bit wrap-around is modelled)
  // ---------------------------------------------------------------------------

  /** plus<int>: the sum of its two operands. */
  function Plus(lhs: int, rhs: int): int { lhs + rhs }

  /** minus<int>: the left operand less the right one. */
  function Minus(lhs: int, rhs: int): int { lhs - rhs }

  /** multiplies<int>: the product of its two operands. */
  function Multiplies(lhs: int, rhs: int): int { lhs * rhs }

  /** maximum<int>: the larger operand; the right one is taken only when it is
      strictly greater, so a tie yields the left one. */
  function Maximum(lhs: int, rhs: int): (r: int)
    ensures r >= lhs && r >= rhs
    ensures r == lhs || r == rhs
  {
    if rhs > lhs then rhs else lhs
  }

  /** minimum<int>: the smaller operand; the right one is taken only when it is
      strictly smaller, so a tie yields the left one. */
  function Minimum(lhs: int, rhs: int): (r: int)
    ensures r <= lhs && r <= rhs
    ensures r == lhs || r == rhs
  {
    if rhs < lhs then rhs else lhs
  }

  /** square<int>: the operand times itself, never negative. Only the value is
      modelled, not the reference the C++ operator returns. */
  function Square(x: int): (r: int)
    ensures r >= 0
    ensures r == Multiplies(x, x)
  {
    x * x
  }

  /** negate<int>: the additive inverse. */
  function Negate(x: int): int { -x }

  // ---------------------------------------------------------------------------
  // Algebraic laws of the operators
  // ---------------------------------------------------------------------------

  /** plus adds, is commutative and associative, and 0 is its identity. */
  lemma PlusLaws(a: int, b: int, c: int)
    ensures Plus(a, b) == a + b
    ensures Plus(a, b) == Plus(b, a)
    ensures Plus(Plus(a, b), c) == Plus(a, Plus(b, c))
    ensures Plus(a, 0) == a && Plus(0, a) == a
  {
  }

  /** minus undoes plus, cancels an operand against itself, and is plus of the
      negated right operand. */
  lemma MinusLaws(a: int, b: int)
    ensures Minus(a, b) == a - b
    ensures Minus(a, a) == 0
    ensures Minus(Plus(a, b), b) == a
    ensures Minus(a, b) == Plus(a, Negate(b))
    ensures Minus(a, b) == Negate(Minus(b, a))
  {
  }

  /** multiplies is commutative and associative, 1 is its identity and 0 absorbs. */
  lemma MultipliesLaws(a: int, b: int, c: int)
    ensures Multiplies(a, b) == a * b
    ensures Multiplies(a, b) == Multiplies(b, a)
    ensures Multiplies(Multiplies(a, b), c) == Multiplies(a, Multiplies(b, c))
    ensures Multiplies(a, 1) == a && Multiplies(1, a) == a
    ensures Multiplies(a, 0) == 0
  {
  }

  /** maximum and minimum split a pair into its two members, and each is the
      mirror image of the other under negate. */
  lemma MaximumMinimumLaws(l: int, r: int)
    ensures Plus(Maximum(l, r), Minimum(l, r)) == Plus(l, r)
    ensures Maximum(l, r) == Negate(Minimum(Negate(l), Negate(r)))
    ensures Maximum(l, r) == Maximum(r, l) && Minimum(l, r) == Minimum(r, l)
  {
  }

  /** negate is an involution and square cannot see the sign. */
  lemma NegateSquareLaws(x: int)
    ensures Negate(Negate(x)) == x
    ensures Square(Negate(x)) == Square(x)
  {
  }

  // ---------------------------------------------------------------------------
  // The registry built by CREATE_BOLT_FUNCTIONAL / CREATE_STD_TYPENAMES
  // ---------------------------------------------------------------------------

  datatype Operator = PlusOp | MinusOp | MultipliesOp | MaximumOp | MinimumOp | SquareOp | NegateOp

  /** The three element types each operator is registered for. */
  datatype ElementType = Float | Int | Double

  /** The name of a registered type and the OpenCL text that defines it. */
  datatype Registration = Registration(typeName: string, clCode: string)

  function OperatorName(op: Operator): (s: string)
    ensures '<' !in s
  {
    match op
    case PlusOp => "plus"
    case MinusOp => "minus"
    case MultipliesOp => "multiplies"
    case MaximumOp => "maximum"
    case MinimumOp => "minimum"
    case SquareOp => "square"
    case NegateOp => "negate"
  }

  function ElementName(t: ElementType): string {
    match t
    case Float => "float"
    case Int => "int"
    case Double => "double"
  }

  /** Reads an operator back from its name: the inverse of OperatorName. */
  function OperatorNamed(s: string): (r: Option<Operator>)
    ensures r.Some? ==> OperatorName(r.value) == s
  {
    if s == "plus" then Some(PlusOp)
    else if s == "minus" then Some(MinusOp)
    else if s == "multiplies" then Some(MultipliesOp)
    else if s == "maximum" then Some(MaximumOp)
    else if s == "minimum" then Some(MinimumOp)
    else if s == "square" then Some(SquareOp)
    else if s == "negate" then Some(NegateOp)
    else None
  }

  /** Reads an element type back from its name: the inverse of ElementName. */
  function ElementNamed(s: string): (r: Option<ElementType>)
    ensures r.Some? ==> ElementName(r.value) == s
  {
    if s == "float" then Some(Float)
    else if s == "int" then Some(Int)
    else if s == "double" then Some(Double)
    else None
  }

  lemma NamesRoundTrip(op: Operator, t: ElementType)
    ensures OperatorNamed(OperatorName(op)) == Some(op)
    ensures ElementNamed(ElementName(t)) == Some(t)
  {
  }

  /** The type name of OPERATOR<T>: the instantiated type spelled out. */
  function TypeName(op: Operator, t: ElementType): string {
    OperatorName(op) + "<" + ElementName(t) + ">"
  }

  /** The stringified definition `#F` that CREATE_BOLT_FUNCTIONAL hands to every
      instance of the operator (runs of white space read as one space). */
  function Definition(op: Operator): string {
    match op
    case PlusOp =>
      "template<typename T> struct plus { T operator()(const T &lhs, const T &rhs) const {return lhs + rhs;} };"
    case MinusOp =>
      "template<typename T> struct minus { T operator()(const T &lhs, const T &rhs) const {return lhs - rhs;} };"
    case MultipliesOp =>
      "template<typename T> struct multiplies { T operator()(const T &lhs, const T &rhs) const {return lhs * rhs;} };"
    case MaximumOp =>
      "template<typename T> struct maximum { T operator()(const T &lhs, const T &rhs) const {return rhs > lhs ? rhs:lhs;} };"
    case MinimumOp =>
      "template<typename T> struct minimum { T operator()(const T &lhs, const T &rhs) const {return rhs < lhs ? rhs:lhs;} };"
    case SquareOp =>
      "template <typename T> struct square { T& operator() (const T& x) const{ return x * x; } };"
    case NegateOp =>
      "template<typename T> struct negate { T operator()(const T &__x) const {return -__x;} };"
  }

  /** CREATE_STD_TYPENAMES(OPERATOR, CODE_STRING): one registration for each of
      float, int and double, all three carrying the same code string. */
  function CreateStdTypenames(op: Operator, code: string): (m: map<ElementType, Registration>)
    ensures m.Keys == {Float, Int, Double}
    ensures forall t :: t in m ==> m[t].clCode == code
  {
    map[Float := Registration(TypeName(op, Float), code),
        Int := Registration(TypeName(op, Int), code),
        Double := Registration(TypeName(op, Double), code)]
  }

  /** What the registry holds for OPERATOR<T> once CREATE_BOLT_FUNCTIONAL ran. */
  function Lookup(op: Operator, t: ElementType): (e: Registration)
    ensures e.clCode == Definition(op)
    ensures e.typeName == TypeName(op, t)
  {
    var m := CreateStdTypenames(op, Definition(op));
    match t
    case Float => m[Float]
    case Int => m[Int]
    case Double => m[Double]
  }

  /** Two strings of the form `a<b>` with no '<' in `a` agree only when both
      parts agree. */
  lemma {:induction false} AngleSplit(a: string, b: string, c: string, d: string)
    requires '<' !in a && '<' !in c
    requires a + "<" + b + ">" == c + "<" + d + ">"
    ensures a == c && b == d
  {
    var s := a + "<" + b + ">";
    assert s == a + ("<" + b + ">");
    assert s == c + ("<" + d + ">");
    Strings.IndexOfAfter(a, "<" + b + ">", '<');
    Strings.IndexOfAfter(c, "<" + d + ">", '<');
    assert a == s[..|a|];
    assert b == s[|a| + 1..|s| - 1];
  }

  /** Every registration has its own type name: no two (operator, element type)
      pairs share one, so no two registered functors can be confused. */
  lemma RegistryNamesAreDistinct(op1: Operator, t1: ElementType, op2: Operator, t2: ElementType)
    requires Lookup(op1, t1).typeName == Lookup(op2, t2).typeName
    ensures op1 == op2 && t1 == t2
  {
    AngleSplit(OperatorName(op1), ElementName(t1), OperatorName(op2), ElementName(t2));
    NamesRoundTrip(op1, t1);
    NamesRoundTrip(op2, t2);
  }

  /** The code string does not depend on the element type. */
  lemma RegistryCodeIgnoresElementType(op: Operator, t1: ElementType, t2: ElementType)
    ensures Lookup(op, t1).clCode == Lookup(op, t2).clCode
  {
  }
}
