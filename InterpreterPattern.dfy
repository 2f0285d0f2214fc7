/**
 * The reverse-Polish calculator of the interpreter pattern: expression trees
 * (numbers, variables, and the three binary operators), their evaluation in a
 * context of variables with Java's 32-bit int arithmetic, their fully
 * parenthesised printing, and the stack-based parser from tokens to a tree.
 *
 * Splitting the input string at whitespace is not modelled: the parser takes
 * the sequence of tokens.
 */
module InterpreterPattern {
  import opened Wrappers
  import opened Strings
  import opened JavaInts

  /** One Java expression object per constructor. */
  datatype Expr =
    | Number(value: Int32)
    | Variable(name: string)
    | Add(left: Expr, right: Expr)
    | Subtract(left: Expr, right: Expr)
    | Multiply(left: Expr, right: Expr)

  /** getVariable: the stored value, or 0 for a name never set. */
  function Lookup(variables: map<string, Int32>, name: string): (v: Int32)
    ensures name in variables ==> v == variables[name]
    ensures name !in variables ==> v == 0
  {
    if name in variables then variables[name] else 0
  }

  /** interpret, with each operation wrapping as Java's int arithmetic does. */
  function Interpret(e: Expr, variables: map<string, Int32>): Int32 {
    match e
    case Number(n) => n
    case Variable(name) => Lookup(variables, name)
    case Add(l, r) => Wrap32(Interpret(l, variables) as int + Interpret(r, variables) as int)
    case Subtract(l, r) => Wrap32(Interpret(l, variables) as int - Interpret(r, variables) as int)
    case Multiply(l, r) => Wrap32(Interpret(l, variables) as int * Interpret(r, variables) as int)
  }

  /** The value of e in unbounded integer arithmetic. */
  function Exact(e: Expr, variables: map<string, Int32>): int {
    match e
    case Number(n) => n as int
    case Variable(name) => Lookup(variables, name) as int
    case Add(l, r) => Exact(l, variables) + Exact(r, variables)
    case Subtract(l, r) => Exact(l, variables) - Exact(r, variables)
    case Multiply(l, r) => Exact(l, variables) * Exact(r, variables)
  }

  lemma WrapCongruent(x: int, y: int)
    requires (x - y) % TwoTo32 == 0
    ensures Wrap32(x) == Wrap32(y)
  {
    var k := (x - y) / TwoTo32;
    assert x + TwoTo31 == (y + TwoTo31) + TwoTo32 * k;
  }

  lemma ProductCongruent(a: int, b: int, x: int, y: int)
    requires (x - a) % TwoTo32 == 0 && (y - b) % TwoTo32 == 0
    ensures (a * b - x * y) % TwoTo32 == 0
  {
    var p, q := (x - a) / TwoTo32, (y - b) / TwoTo32;
    assert x == a + TwoTo32 * p && y == b + TwoTo32 * q;
    calc {
      a * b - x * y;
      a * b - (a + TwoTo32 * p) * (b + TwoTo32 * q);
      TwoTo32 * (-(a * q + p * b + TwoTo32 * p * q));
    }
  }

  /** Interpretation is the wrapped exact value: the relation each node inherits from its children. */
  ghost predicate WrapsExact(e: Expr, variables: map<string, Int32>) {
    Interpret(e, variables) == Wrap32(Exact(e, variables))
  }

  lemma SumCongruent(a: int, b: int, x: int, y: int)
    requires (x - a) % TwoTo32 == 0 && (y - b) % TwoTo32 == 0
    ensures ((a + b) - (x + y)) % TwoTo32 == 0 && ((a - b) - (x - y)) % TwoTo32 == 0
  {
    var p, q := (x - a) / TwoTo32, (y - b) / TwoTo32;
    assert x - a == TwoTo32 * p && y - b == TwoTo32 * q;
    assert (a + b) - (x + y) == TwoTo32 * (-p - q);
    assert (a - b) - (x - y) == TwoTo32 * (q - p);
  }

  lemma AddWraps(l: Expr, r: Expr, variables: map<string, Int32>)
    requires WrapsExact(l, variables) && WrapsExact(r, variables)
    ensures WrapsExact(Add(l, r), variables)
  {
    var a, b := Interpret(l, variables) as int, Interpret(r, variables) as int;
    var x, y := Exact(l, variables), Exact(r, variables);
    SumCongruent(a, b, x, y);
    WrapCongruent(a + b, x + y);
  }

  lemma SubtractWraps(l: Expr, r: Expr, variables: map<string, Int32>)
    requires WrapsExact(l, variables) && WrapsExact(r, variables)
    ensures WrapsExact(Subtract(l, r), variables)
  {
    var a, b := Interpret(l, variables) as int, Interpret(r, variables) as int;
    var x, y := Exact(l, variables), Exact(r, variables);
    SumCongruent(a, b, x, y);
    WrapCongruent(a - b, x - y);
  }

  lemma MultiplyWraps(l: Expr, r: Expr, variables: map<string, Int32>)
    requires WrapsExact(l, variables) && WrapsExact(r, variables)
    ensures WrapsExact(Multiply(l, r), variables)
  {
    var a, b := Interpret(l, variables) as int, Interpret(r, variables) as int;
    var x, y := Exact(l, variables), Exact(r, variables);
    ProductCongruent(a, b, x, y);
    WrapCongruent(a * b, x * y);
  }

  /**
   * Evaluation with wrap-around is the exact value wrapped once: intermediate
   * overflow does not matter, only whether the final value fits.
   */
  lemma {:induction false} InterpretIsWrappedExact(e: Expr, variables: map<string, Int32>)
    ensures Interpret(e, variables) == Wrap32(Exact(e, variables))
  {
    match e
    case Number(n) =>
    case Variable(name) =>
    case Add(l, r) =>
      InterpretIsWrappedExact(l, variables);
      InterpretIsWrappedExact(r, variables);
      AddWraps(l, r, variables);
    case Subtract(l, r) =>
      InterpretIsWrappedExact(l, variables);
      InterpretIsWrappedExact(r, variables);
      SubtractWraps(l, r, variables);
    case Multiply(l, r) =>
      InterpretIsWrappedExact(l, variables);
      InterpretIsWrappedExact(r, variables);
      MultiplyWraps(l, r, variables);
  }

  /** Whenever the exact value fits in an int, that is what interpret returns. */
  lemma InterpretExactWhenInRange(e: Expr, variables: map<string, Int32>)
    requires -TwoTo31 <= Exact(e, variables) < TwoTo31
    ensures Interpret(e, variables) as int == Exact(e, variables)
  {
    InterpretIsWrappedExact(e, variables);
  }

  /** toString: numbers in decimal, variables by name, operators in full parentheses. */
  function ToString(e: Expr): string {
    match e
    case Number(n) => IntToString(n as int)
    case Variable(name) => name
    case Add(l, r) => "(" + ToString(l) + " + " + ToString(r) + ")"
    case Subtract(l, r) => "(" + ToString(l) + " - " + ToString(r) + ")"
    case Multiply(l, r) => "(" + ToString(l) + " * " + ToString(r) + ")"
  }

  /** The number of operator nodes. */
  function Operators(e: Expr): nat {
    match e
    case Number(_) => 0
    case Variable(_) => 0
    case Add(l, r) => 1 + Operators(l) + Operators(r)
    case Subtract(l, r) => 1 + Operators(l) + Operators(r)
    case Multiply(l, r) => 1 + Operators(l) + Operators(r)
  }

  /** Every variable name in e avoids the given characters. */
  predicate NamesAvoid(e: Expr, bad: set<char>) {
    match e
    case Number(_) => true
    case Variable(name) => Avoids(name, bad)
    case Add(l, r) => NamesAvoid(l, bad) && NamesAvoid(r, bad)
    case Subtract(l, r) => NamesAvoid(l, bad) && NamesAvoid(r, bad)
    case Multiply(l, r) => NamesAvoid(l, bad) && NamesAvoid(r, bad)
  }

  lemma {:induction false} CountBinary(c: char, l: string, op: string, r: string)
    requires c in {'(', ')'} && Avoids(op, {'(', ')'})
    ensures Count(c, "(" + l + op + r + ")") == Count(c, l) + Count(c, r) + 1
  {
    CountAppend(c, "(" + l + op + r, ")");
    CountAppend(c, "(" + l + op, r);
    CountAppend(c, "(" + l, op);
    CountAppend(c, "(", l);
    CountAvoided(c, op, {'(', ')'});
  }

  /** A rendered number holds no parenthesis: only digits and perhaps a leading minus. */
  lemma NumeralAvoidsParentheses(i: int)
    ensures Avoids(IntToString(i), {'(', ')'})
  {
    var s := IntToString(i);
    if i < 0 {
      forall k | 0 <= k < |s| ensures s[k] !in {'(', ')'} {
        if k > 0 { assert s[k] == s[1..][k - 1]; }
      }
    }
  }

  /** The three operator separators hold no parenthesis. */
  lemma SeparatorsAvoidParentheses()
    ensures Avoids(" + ", {'(', ')'}) && Avoids(" - ", {'(', ')'}) && Avoids(" * ", {'(', ')'})
  {
  }

  /**
   * The printing is fully parenthesised: when no variable name holds a
   * parenthesis, there is one "(" and one ")" per operator node.
   */
  lemma {:induction false} ToStringParenthesises(e: Expr)
    requires NamesAvoid(e, {'(', ')'})
    ensures Count('(', ToString(e)) == Operators(e)
    ensures Count(')', ToString(e)) == Operators(e)
  {
    SeparatorsAvoidParentheses();
    match e
    case Number(n) =>
      var s := IntToString(n as int);
      NumeralAvoidsParentheses(n as int);
      CountAvoided('(', s, {'(', ')'});
      CountAvoided(')', s, {'(', ')'});
    case Variable(name) =>
      CountAvoided('(', name, {'(', ')'});
      CountAvoided(')', name, {'(', ')'});
    case Add(l, r) =>
      ToStringParenthesises(l);
      ToStringParenthesises(r);
      CountBinary('(', ToString(l), " + ", ToString(r));
      CountBinary(')', ToString(l), " + ", ToString(r));
    case Subtract(l, r) =>
      ToStringParenthesises(l);
      ToStringParenthesises(r);
      CountBinary('(', ToString(l), " - ", ToString(r));
      CountBinary(')', ToString(l), " - ", ToString(r));
    case Multiply(l, r) =>
      ToStringParenthesises(l);
      ToStringParenthesises(r);
      CountBinary('(', ToString(l), " * ", ToString(r));
      CountBinary(')', ToString(l), " * ", ToString(r));
  }

  /** Stack.pop on an empty stack, and Integer.parseInt of a number above the int range. */
  datatype ParseError = EmptyStack | NumberTooLarge(token: string)

  predicate IsOperator(token: string) {
    token == "+" || token == "-" || token == "*"
  }

  /**
   * One token applied to the stack (top last): an operator pops the right
   * operand, then the left one, and pushes the combined node; a run of digits
   * pushes a number; any other token pushes a variable.
   */
  function PushToken(stack: seq<Expr>, token: string): (r: Result<seq<Expr>, ParseError>)
    ensures IsOperator(token) ==> (r.Ok? <==> |stack| >= 2)
    ensures r.Ok? && IsOperator(token) ==> |r.value| == |stack| - 1 && r.value[..|stack| - 2] == stack[..|stack| - 2]
    ensures r.Ok? && !IsOperator(token) ==> |r.value| == |stack| + 1 && r.value[..|stack|] == stack
    ensures !IsOperator(token) && !IsDigits(token) ==> r == Ok(stack + [Variable(token)])
    ensures IsDigits(token) && DigitsValue(token) < TwoTo31 ==> r == Ok(stack + [Number(DigitsValue(token) as Int32)])
    ensures IsDigits(token) && DigitsValue(token) >= TwoTo31 ==> r == Err(NumberTooLarge(token))
  {
    if IsOperator(token) then
      if |stack| < 2 then Err(EmptyStack)
      else
        var right, left := stack[|stack| - 1], stack[|stack| - 2];
        var rest := stack[..|stack| - 2];
        if token == "+" then Ok(rest + [Add(left, right)])
        else if token == "-" then Ok(rest + [Subtract(left, right)])
        else Ok(rest + [Multiply(left, right)])
    else if IsDigits(token) then
      var n := DigitsValue(token);
      if n < TwoTo31 then Ok(stack + [Number(n as Int32)]) else Err(NumberTooLarge(token))
    else
      Ok(stack + [Variable(token)])
  }

  /** The number of operator tokens. */
  function OperatorCount(tokens: seq<string>): nat {
    if tokens == [] then 0 else (if IsOperator(tokens[0]) then 1 else 0) + OperatorCount(tokens[1..])
  }

  /**
   * The stack after the tokens, first token first, or the first error. Every
   * operand token adds one entry and every operator token takes one away.
   */
  function PushTokens(stack: seq<Expr>, tokens: seq<string>): (r: Result<seq<Expr>, ParseError>)
    ensures r.Ok? ==> |r.value| == |stack| + |tokens| - 2 * OperatorCount(tokens)
    decreases |tokens|
  {
    if tokens == [] then Ok(stack)
    else
      match PushToken(stack, tokens[0])
      case Err(error) => Err(error)
      case Ok(next) => PushTokens(next, tokens[1..])
  }

  /**
   * parse: the top of the stack once every token is in; an empty stack there
   * is an error, so a parse succeeds only with more than twice as many tokens
   * as operators.
   */
  function Parsed(tokens: seq<string>): (r: Result<Expr, ParseError>)
    ensures r.Ok? ==> |tokens| > 2 * OperatorCount(tokens)
    ensures tokens == [] ==> r == Err(EmptyStack)
  {
    match PushTokens([], tokens)
    case Err(error) => Err(error)
    case Ok(stack) => if stack == [] then Err(EmptyStack) else Ok(stack[|stack| - 1])
  }

  /** ExpressionParser.parse: the loop over tokens with a mutable stack. */
  method Parse(tokens: seq<string>) returns (r: Result<Expr, ParseError>)
    ensures r == Parsed(tokens)
  {
    var stack: seq<Expr> := [];
    var i := 0;
    while i < |tokens|
      invariant 0 <= i <= |tokens|
      invariant PushTokens(stack, tokens[i..]) == PushTokens([], tokens)
    {
      var token := tokens[i];
      assert tokens[i..][1..] == tokens[i + 1..];
      if IsOperator(token) {
        if |stack| < 2 {
          return Err(EmptyStack);
        }
        var right := stack[|stack| - 1];
        var left := stack[|stack| - 2];
        stack := stack[..|stack| - 2];
        if token == "+" {
          stack := stack + [Add(left, right)];
        } else if token == "-" {
          stack := stack + [Subtract(left, right)];
        } else {
          stack := stack + [Multiply(left, right)];
        }
      } else if IsDigits(token) {
        var n := DigitsValue(token);
        if n >= TwoTo31 {
          return Err(NumberTooLarge(token));
        }
        stack := stack + [Number(n as Int32)];
      } else {
        stack := stack + [Variable(token)];
      }
      i := i + 1;
    }
    if stack == [] {
      return Err(EmptyStack);
    }
    r := Ok(stack[|stack| - 1]);
  }

  /** The tokens of e in reverse Polish order. */
  function ToTokens(e: Expr): seq<string> {
    match e
    case Number(n) => [IntToString(n as int)]
    case Variable(name) => [name]
    case Add(l, r) => ToTokens(l) + ToTokens(r) + ["+"]
    case Subtract(l, r) => ToTokens(l) + ToTokens(r) + ["-"]
    case Multiply(l, r) => ToTokens(l) + ToTokens(r) + ["*"]
  }

  /**
   * The trees the parser can produce: numbers are not negative, and no
   * variable name is an operator or a run of digits.
   */
  predicate Parseable(e: Expr) {
    match e
    case Number(n) => n >= 0
    case Variable(name) => !IsOperator(name) && !IsDigits(name)
    case Add(l, r) => Parseable(l) && Parseable(r)
    case Subtract(l, r) => Parseable(l) && Parseable(r)
    case Multiply(l, r) => Parseable(l) && Parseable(r)
  }

  function Size(e: Expr): nat {
    match e
    case Number(_) => 1
    case Variable(_) => 1
    case Add(l, r) => 1 + Size(l) + Size(r)
    case Subtract(l, r) => 1 + Size(l) + Size(r)
    case Multiply(l, r) => 1 + Size(l) + Size(r)
  }

  lemma {:induction false} PushTokensAppend(stack: seq<Expr>, e: Expr, rest: seq<string>)
    requires Parseable(e)
    ensures PushTokens(stack, ToTokens(e) + rest) == PushTokens(stack + [e], rest)
    decreases Size(e), 1
  {
    match e
    case Number(n) =>
      var t := IntToString(n as int);
      DigitsValueOfNatToString(n as nat);
      assert (ToTokens(e) + rest)[1..] == rest;
    case Variable(name) =>
      assert (ToTokens(e) + rest)[1..] == rest;
    case Add(l, r) =>
      BinaryTokens(stack, l, r, "+", rest);
    case Subtract(l, r) =>
      BinaryTokens(stack, l, r, "-", rest);
    case Multiply(l, r) =>
      BinaryTokens(stack, l, r, "*", rest);
  }

  /** The node an operator token builds from its two operands. */
  function Node(op: string, l: Expr, r: Expr): Expr {
    if op == "+" then Add(l, r) else if op == "-" then Subtract(l, r) else Multiply(l, r)
  }

  /** An operator token replaces the two operands on top of the stack by their node. */
  lemma OperatorPushes(stack: seq<Expr>, l: Expr, r: Expr, op: string, rest: seq<string>)
    requires IsOperator(op)
    ensures PushTokens(stack + [l] + [r], [op] + rest) == PushTokens(stack + [Node(op, l, r)], rest)
  {
    var s := stack + [l] + [r];
    assert s[|s| - 1] == r && s[|s| - 2] == l && s[..|s| - 2] == stack;
    assert PushToken(s, op) == Ok(stack + [Node(op, l, r)]);
    assert ([op] + rest)[1..] == rest;
  }

  lemma {:induction false} BinaryTokens(stack: seq<Expr>, l: Expr, r: Expr, op: string, rest: seq<string>)
    requires Parseable(l) && Parseable(r) && IsOperator(op)
    ensures PushTokens(stack, ToTokens(l) + ToTokens(r) + [op] + rest) == PushTokens(stack + [Node(op, l, r)], rest)
    decreases Size(l) + Size(r) + 1, 0
  {
    assert ToTokens(l) + ToTokens(r) + [op] + rest == ToTokens(l) + (ToTokens(r) + ([op] + rest));
    PushTokensAppend(stack, l, ToTokens(r) + ([op] + rest));
    PushTokensAppend(stack + [l], r, [op] + rest);
    OperatorPushes(stack, l, r, op, rest);
  }

  /** Printing a tree in reverse Polish order and parsing the tokens gives the tree back. */
  lemma ParseToTokens(e: Expr)
    requires Parseable(e)
    ensures Parsed(ToTokens(e)) == Ok(e)
  {
    PushTokensAppend([], e, []);
    assert ToTokens(e) + [] == ToTokens(e);
  }

  /** The variables of the calculator: a map updated in place. */
  class Context {
    var variables: map<string, Int32>

    constructor ()
      ensures variables == map[]
    {
      variables := map[];
    }

    /** setVariable: the name now has the value, whatever it had before; no other name changes. */
    method SetVariable(name: string, value: Int32)
      modifies this
      ensures variables == old(variables)[name := value]
    {
      variables := variables[name := value];
    }

    method GetVariable(name: string) returns (v: Int32)
      ensures v == Lookup(variables, name)
    {
      v := if name in variables then variables[name] else 0;
    }
  }

  class Calculator {
    const context: Context

    constructor ()
      ensures fresh(context) && context.variables == map[]
    {
      context := new Context();
    }

    method SetVariable(name: string, value: Int32)
      modifies context
      ensures context.variables == old(context.variables)[name := value]
    {
      context.SetVariable(name, value);
    }

    /** evaluate: parse, then interpret in the calculator's context. */
    method Evaluate(tokens: seq<string>) returns (r: Result<Int32, ParseError>)
      ensures Parsed(tokens).Err? ==> r == Err(Parsed(tokens).error)
      ensures Parsed(tokens).Ok? ==> r == Ok(Interpret(Parsed(tokens).value, context.variables))
    {
      var parsed := Parse(tokens);
      match parsed
      case Err(error) => r := Err(error);
      case Ok(expr) => r := Ok(Interpret(expr, context.variables));
    }
  }

  /** The numerals of the demonstration. */
  lemma DemoNumerals()
    ensures IntToString(3) == "3" && IntToString(4) == "4" && IntToString(5) == "5"
    ensures IntToString(10) == "10" && IntToString(15) == "15" && IntToString(100) == "100"
  {
    assert NatToString(1) == "1" && NatToString(10) == "10";
  }

  lemma ParsesDifference()
    ensures Parsed(["10", "5", "-"]) == Ok(Subtract(Number(10), Number(5)))
  {
    var e := Subtract(Number(10), Number(5));
    DemoNumerals();
    assert ToTokens(Number(10)) == ["10"] && ToTokens(Number(5)) == ["5"];
    assert ToTokens(e) == ["10", "5", "-"];
    ParseToTokens(e);
  }

  lemma ProductTokens()
    ensures ToTokens(Multiply(Subtract(Number(15), Number(3)), Number(4))) == ["15", "3", "-", "4", "*"]
  {
    var d := Subtract(Number(15), Number(3));
    DemoNumerals();
    assert ToTokens(Number(15)) == ["15"] && ToTokens(Number(3)) == ["3"] && ToTokens(Number(4)) == ["4"];
    assert ToTokens(d) == ["15", "3", "-"];
  }

  lemma ParsesProduct()
    ensures Parsed(["15", "3", "-", "4", "*"]) == Ok(Multiply(Subtract(Number(15), Number(3)), Number(4)))
  {
    ProductTokens();
    ParseToTokens(Multiply(Subtract(Number(15), Number(3)), Number(4)));
  }

  lemma ParsesMixed()
    ensures Parsed(["100", "x", "y", "+", "-"]) == Ok(Subtract(Number(100), Add(Variable("x"), Variable("y"))))
  {
    var s := Add(Variable("x"), Variable("y"));
    var e := Subtract(Number(100), s);
    assert !IsDigit("x"[0]) && !IsDigit("y"[0]);
    assert Parseable(s);
    DemoNumerals();
    assert ToTokens(Number(100)) == ["100"];
    assert ToTokens(s) == ["x", "y", "+"];
    assert ToTokens(e) == ["100"] + ToTokens(s) + ["-"] == ["100", "x", "y", "+", "-"];
    ParseToTokens(e);
  }

  /** An operator without two operands fails; with operands left over, the top one is the result. */
  lemma ParsesShortAndLeftover()
    ensures Parsed(["1", "+"]) == Err(EmptyStack)
    ensures Parsed(["1", "2"]) == Ok(Number(2))
  {
    assert IsDigit("1"[0]) && IsDigit("2"[0]) && DigitsValue("1") == 1 && DigitsValue("2") == 2;
    assert PushToken([], "1") == Ok([] + [Number(1)]);
    assert PushToken([Number(1)], "2") == Ok([Number(1)] + [Number(2)]);
    assert ["1", "2"][1..] == ["2"] && ["1", "+"][1..] == ["+"];
    assert PushTokens([], ["1", "2"]) == PushTokens([Number(1)], ["2"]);
  }

  /**
   * With operands left over, the result is the top expression only: the
   * tokens of a followed by those of b parse to b, for every pair of trees.
   */
  lemma {:induction false} LeftoverOperands(a: Expr, b: Expr)
    requires Parseable(a) && Parseable(b)
    ensures Parsed(ToTokens(a) + ToTokens(b)) == Ok(b)
  {
    PushTokensAppend([], a, ToTokens(b));
    PushTokensAppend([a], b, []);
    assert ToTokens(b) + [] == ToTokens(b);
    assert [] + [a] == [a];
  }

  /** The demonstration's three expressions in the context x = 10, y = 5, z = 2. */
  lemma DemoValues(variables: map<string, Int32>)
    requires variables == map["x" := 10, "y" := 5, "z" := 2]
    ensures Interpret(Subtract(Number(10), Number(5)), variables) == 5
    ensures Interpret(Multiply(Subtract(Number(15), Number(3)), Number(4)), variables) == 48
    ensures Interpret(Subtract(Number(100), Add(Variable("x"), Variable("y"))), variables) == 85
  {
    assert Interpret(Subtract(Number(15), Number(3)), variables) == 12;
    assert Interpret(Add(Variable("x"), Variable("y")), variables) == 15;
  }

  /**
   * The demonstration's calculator with x = 10, y = 5 and z = 2: "10 5 -" is 5
   * (operand order is kept), "15 3 - 4 *" is 48 and "100 x y + -" is 85.
   */
  method CalculatorScenario() returns (difference: Result<Int32, ParseError>,
                                       product: Result<Int32, ParseError>,
                                       mixed: Result<Int32, ParseError>)
    ensures difference == Ok(5) && product == Ok(48) && mixed == Ok(85)
  {
    var calculator := new Calculator();
    calculator.SetVariable("x", 10);
    calculator.SetVariable("y", 5);
    calculator.SetVariable("z", 2);
    DemoValues(calculator.context.variables);
    ParsesDifference();
    ParsesProduct();
    ParsesMixed();
    difference := calculator.Evaluate(["10", "5", "-"]);
    product := calculator.Evaluate(["15", "3", "-", "4", "*"]);
    mixed := calculator.Evaluate(["100", "x", "y", "+", "-"]);
  }
}
