/** Properties of the operators, stated on the specification `Apply`. */
module RpnProperties {
  import opened Rpn

  /**
    Every operator removes its operands before it can fail: on a stack that
    is too short it reports `Empty` and leaves nothing; otherwise the part
    below the operands is untouched, a failure leaves exactly that part, and
    a success adds `Produces(op)` values on top of it.
   */
  lemma ApplyFrame(op: Op, s: seq<Item>, draw: nat)
    ensures var o := Apply(op, s, draw);
      && (|s| < Arity(op) ==> o == Outcome(Failure(Error.Empty), []))
      && (|s| >= Arity(op) ==>
            && s[..|s| - Arity(op)] <= o.stack
            && (o.status != Success ==> o.stack == s[..|s| - Arity(op)])
            && (o.status == Success ==> |o.stack| == |s| - Arity(op) + Produces(op)))
  {
  }

  /** `+` on two integers pushes their (wrapped) sum; within range it is the exact sum. */
  lemma AddInts(s: seq<Item>, b: Int32, a: Int32, draw: nat)
    ensures Apply(Add, s + [Int(b), Int(a)], draw) == Outcome(Success, s + [Int(WrapAdd(a, b))])
    ensures I32_MIN <= a + b <= I32_MAX ==> WrapAdd(a, b) == a + b
  {
    assert (s + [Int(b), Int(a)])[..|s|] == s;
  }

  /** `+` with a boolean operand is a type error, and both operands are gone. */
  lemma AddTypeError(s: seq<Item>, b: Item, a: Item, draw: nat)
    requires a.Bool? || b.Bool?
    ensures Apply(Add, s + [b, a], draw) == Outcome(Failure(Type), s)
  {
    assert (s + [b, a])[..|s|] == s;
  }

  /** `=` compares two values of one variant and rejects mixed variants. */
  lemma EqSemantics(s: seq<Item>, b: Item, a: Item, draw: nat)
    ensures a.Int? == b.Int? ==> Apply(Eq, s + [b, a], draw) == Outcome(Success, s + [Bool(a == b)])
    ensures a.Int? != b.Int? ==> Apply(Eq, s + [b, a], draw) == Outcome(Failure(Type), s)
  {
    assert (s + [b, a])[..|s|] == s;
  }

  /** `x x =` is always true. */
  lemma EqReflexive(s: seq<Item>, x: Item, draw: nat)
    ensures Apply(Eq, s + [x, x], draw) == Outcome(Success, s + [Bool(true)])
  {
    EqSemantics(s, x, x, draw);
  }

  /** `~` twice gives back the same stack. */
  lemma NegInvolutive(s: seq<Item>, v: bool, d1: nat, d2: nat)
    ensures Apply(Neg, s + [Bool(v)], d1) == Outcome(Success, s + [Bool(!v)])
    ensures Apply(Neg, Apply(Neg, s + [Bool(v)], d1).stack, d2) == Outcome(Success, s + [Bool(v)])
  {
    assert (s + [Bool(v)])[..|s|] == s;
    assert (s + [Bool(!v)])[..|s|] == s;
  }

  /** `~` on an integer is a type error and the integer is gone. */
  lemma NegTypeError(s: seq<Item>, n: Int32, draw: nat)
    ensures Apply(Neg, s + [Int(n)], draw) == Outcome(Failure(Type), s)
  {
    assert (s + [Int(n)])[..|s|] == s;
  }

  /** `<->` exchanges the top two values and nothing else. */
  lemma SwapExchanges(s: seq<Item>, b: Item, a: Item, draw: nat)
    ensures Apply(Swap, s + [b, a], draw) == Outcome(Success, s + [a, b])
  {
    assert (s + [b, a])[..|s|] == s;
  }

  /** `<->` twice restores any stack with at least two values. */
  lemma SwapInvolutive(s: seq<Item>, d1: nat, d2: nat)
    requires |s| >= 2
    ensures Apply(Swap, Apply(Swap, s, d1).stack, d2) == Outcome(Success, s)
  {
    var n := |s|;
    var rest := s[..n - 2];
    assert s == rest + [s[n - 2], s[n - 1]];
    SwapExchanges(rest, s[n - 2], s[n - 1], d1);
    SwapExchanges(rest, s[n - 1], s[n - 2], d2);
  }

  /** `<->` on a single value reports `Empty` after having popped that value. */
  lemma SwapSingle(x: Item, draw: nat)
    ensures Apply(Swap, [x], draw) == Outcome(Failure(Error.Empty), [])
  {
  }

  /** `#` on a positive bound replaces it with a number in `[0, bound)`. */
  lemma RandRange(s: seq<Item>, bound: Int32, draw: nat)
    requires bound > 0
    ensures var o := Apply(Rand, s + [Int(bound)], draw);
      o.status == Success && |o.stack| == |s| + 1 && o.stack[..|s|] == s
      && o.stack[|s|].Int? && 0 <= o.stack[|s|].n < bound
  {
    assert (s + [Int(bound)])[..|s|] == s;
  }

  /** Every number in `[0, bound)` is a possible result of `#`. */
  lemma RandReachable(s: seq<Item>, bound: Int32, r: nat)
    requires r < bound
    ensures Apply(Rand, s + [Int(bound)], r) == Outcome(Success, s + [Int(r)])
  {
    RandRange(s, bound, r);
    assert r % bound == r;
  }

  /** `#` on a boolean is a type error; on a bound of zero or less the generator panics. */
  lemma RandRejects(s: seq<Item>, a: Item, draw: nat)
    ensures a.Bool? ==> Apply(Rand, s + [a], draw) == Outcome(Failure(Type), s)
    ensures a.Int? && a.n <= 0 ==> Apply(Rand, s + [a], draw) == Outcome(Panic, s)
  {
    assert (s + [a])[..|s|] == s;
  }

  /**
    `?` takes the condition from the deepest of its three operands: when it
    is true the result is the middle operand, when false the top one, each
    kept as it was; a non-boolean condition is a type error with all three gone.
   */
  lemma CondSemantics(s: seq<Item>, c: Item, b: Item, a: Item, draw: nat)
    ensures c == Bool(true) ==> Apply(Cond, s + [c, b, a], draw) == Outcome(Success, s + [b])
    ensures c == Bool(false) ==> Apply(Cond, s + [c, b, a], draw) == Outcome(Success, s + [a])
    ensures c.Int? ==> Apply(Cond, s + [c, b, a], draw) == Outcome(Failure(Type), s)
  {
    assert (s + [c, b, a])[..|s|] == s;
  }

  /** `quit` always stops, whatever the stack holds, and changes nothing. */
  lemma QuitAlways(s: seq<Item>, draw: nat)
    ensures Apply(Op.Quit, s, draw) == Outcome(Failure(Error.Quit), s)
  {
  }

  /** An operator that succeeds always leaves a result of the variant it promises. */
  lemma ResultVariant(op: Op, s: seq<Item>, draw: nat)
    requires Apply(op, s, draw).status == Success
    ensures var top := Apply(op, s, draw).stack[|Apply(op, s, draw).stack| - 1];
      && (op == Add || op == Rand ==> top.Int?)
      && (op == Eq || op == Neg ==> top.Bool?)
      && (op == Cond ==> top == s[|s| - 2] || top == s[|s| - 1])
  {
  }
}
