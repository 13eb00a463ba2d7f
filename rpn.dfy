/**
  The operand-stack machine of the RPN calculator (rust-1/src/rpn.rs).

  Values are 32-bit integers or booleans; a `Stack` owns a growable list of
  them. `Apply` is the specification of one operator as a function of the
  stack before it; `Stack.Eval` is the operator as the source writes it, a
  sequence of pops and pushes with early error returns, proved to agree with
  `Apply`.
 */
module Rpn {

  const I32_MIN: int := -0x8000_0000
  const I32_MAX: int := 0x7fff_ffff

  /** Rust's `i32`. */
  type Int32 = x: int | -0x8000_0000 <= x <= 0x7fff_ffff

  /** `a + b` on `i32` with two's-complement wrap-around (the release-build
      behaviour; a debug build panics instead). */
  function WrapAdd(a: Int32, b: Int32): (r: Int32)
    ensures I32_MIN <= a + b <= I32_MAX ==> r == a + b
    ensures (a + b - r) % 0x1_0000_0000 == 0
  {
    var sum := a + b;
    if sum > I32_MAX then sum - 0x1_0000_0000
    else if sum < I32_MIN then sum + 0x1_0000_0000
    else sum
  }

  /** A stack entry: `Item::Int(i32)` or `Item::Bool(bool)`. */
  datatype Item = Int(n: Int32) | Bool(b: bool)

  /** The calculator's error kinds. The payload of `IO(io::Error)` is not modelled. */
  datatype Error = Empty | Extra | Type | Syntax | IO | Quit

  /** The closed set of operators. */
  datatype Op = Add | Eq | Neg | Swap | Rand | Cond | Quit

  /** `rpn::Result<T>`. */
  datatype Result<T> = Ok(value: T) | Err(error: Error)

  /** What an operator does to the calculator: `Success` and `Failure` are the
      `Ok(())` and `Err(e)` of `rpn::Result<()>`; `Panic` is the panic of the
      random-number generator when asked for a number in an empty range. */
  datatype Status = Success | Failure(error: Error) | Panic

  /** A status together with the stack it leaves behind. */
  datatype Outcome = Outcome(status: Status, stack: seq<Item>)

  /** How many operands an operator pops before it can fail on their variants. */
  function Arity(op: Op): nat
  {
    match op
    case Add => 2
    case Eq => 2
    case Neg => 1
    case Swap => 2
    case Rand => 1
    case Cond => 3
    case Quit => 0
  }

  /** How many values an operator pushes when it succeeds. */
  function Produces(op: Op): nat
  {
    match op
    case Swap => 2
    case Quit => 0
    case _ => 1
  }

  /**
    The meaning of one operator on a stack `s` (top of the stack at the end).
    All `Arity(op)` operands are removed before anything can fail, so a
    stack that is too short is emptied and every failure leaves `rest`, the
    stack below the operands. `draw` is what the random-number generator
    yields; `Rand` reduces it into the requested range.
   */
  function Apply(op: Op, s: seq<Item>, draw: nat): Outcome
  {
    if |s| < Arity(op) then Outcome(Failure(Error.Empty), [])
    else
      var k := |s| - Arity(op);
      var rest := s[..k];
      match op
      case Add =>
        var a, b := s[k + 1], s[k];
        if a.Int? && b.Int? then Outcome(Success, rest + [Int(WrapAdd(a.n, b.n))])
        else Outcome(Failure(Type), rest)
      case Eq =>
        var a, b := s[k + 1], s[k];
        if a.Int? == b.Int? then Outcome(Success, rest + [Bool(a == b)])
        else Outcome(Failure(Type), rest)
      case Neg =>
        var a := s[k];
        if a.Bool? then Outcome(Success, rest + [Bool(!a.b)])
        else Outcome(Failure(Type), rest)
      case Swap =>
        Outcome(Success, rest + [s[k + 1], s[k]])
      case Rand =>
        var a := s[k];
        if a.Bool? then Outcome(Failure(Type), rest)
        else if a.n > 0 then Outcome(Success, rest + [Int(draw % a.n)])
        else Outcome(Panic, rest)
      case Cond =>
        var a, b, c := s[k + 2], s[k + 1], s[k];
        if c.Bool? then Outcome(Success, rest + [if c.b then b else a])
        else Outcome(Failure(Type), rest)
      case Quit =>
        Outcome(Failure(Error.Quit), s)
  }

  /** `rpn::Stack`: the `Vec<Item>` it owns, top of the stack last. */
  class Stack {
    var items: seq<Item>

    /** `Stack::new`. */
    constructor ()
      ensures items == []
    {
      items := [];
    }

    /** `Stack::empty`. */
    function IsEmpty(): (e: bool)
      reads this
      ensures e <==> |items| == 0
    {
      items == []
    }

    /** `Stack::push`; its `Result<()>` is always `Ok(())` and is not modelled. */
    method Push(item: Item)
      modifies this
      ensures items == old(items) + [item]
    {
      items := items + [item];
    }

    /** `Stack::pop`. */
    method Pop() returns (r: Result<Item>)
      modifies this
      ensures old(items) == [] ==> r == Err(Error.Empty) && items == old(items)
      ensures old(items) != [] ==> r == Ok(old(items)[|old(items)| - 1]) && items == old(items)[..|old(items)| - 1]
    {
      if IsEmpty() {
        r := Err(Error.Empty);
      } else {
        r := Ok(items[|items| - 1]);
        items := items[..|items| - 1];
      }
    }

    /** `Stack::eval`: apply one operator; `draw` stands for the answer of the
        random-number generator, used by `Rand` only. Each arm of the
        source's `match op` is one method below. */
    method Eval(op: Op, draw: nat) returns (st: Status)
      modifies this
      ensures Outcome(st, items) == Apply(op, old(items), draw)
    {
      match op
      case Add => st := EvalAdd();
      case Eq => st := EvalEq();
      case Neg => st := EvalNeg();
      case Swap => st := EvalSwap();
      case Rand => st := EvalRand(draw);
      case Cond => st := EvalCond();
      case Quit => st := Failure(Error.Quit);
    }

    method EvalAdd() returns (st: Status)
      modifies this
      ensures Outcome(st, items) == Apply(Add, old(items), 0)
    {
      ghost var s := items;
      var a := Pop();
      if a.Err? { return Failure(a.error); }
      var b := Pop();
      if b.Err? { return Failure(b.error); }
      assert items == s[..|s| - 2];
      match (a.value, b.value) {
        case (Int(x), Int(y)) =>
          Push(Int(WrapAdd(x, y)));
          st := Success;
        case _ =>
          st := Failure(Type);
      }
    }

    method EvalEq() returns (st: Status)
      modifies this
      ensures Outcome(st, items) == Apply(Eq, old(items), 0)
    {
      ghost var s := items;
      var a := Pop();
      if a.Err? { return Failure(a.error); }
      var b := Pop();
      if b.Err? { return Failure(b.error); }
      assert items == s[..|s| - 2];
      match (a.value, b.value) {
        case (Int(x), Int(y)) =>
          Push(Bool(x == y));
          st := Success;
        case (Bool(x), Bool(y)) =>
          Push(Bool(x == y));
          st := Success;
        case _ =>
          st := Failure(Type);
      }
    }

    method EvalNeg() returns (st: Status)
      modifies this
      ensures Outcome(st, items) == Apply(Neg, old(items), 0)
    {
      var a := Pop();
      if a.Err? { return Failure(a.error); }
      if a.value.Bool? {
        Push(Bool(!a.value.b));
      } else {
        return Failure(Type);
      }
      st := Success;
    }

    method EvalSwap() returns (st: Status)
      modifies this
      ensures Outcome(st, items) == Apply(Swap, old(items), 0)
    {
      ghost var s := items;
      var a := Pop();
      if a.Err? { return Failure(a.error); }
      var b := Pop();
      if b.Err? { return Failure(b.error); }
      assert items == s[..|s| - 2];
      Push(a.value);
      Push(b.value);
      st := Success;
    }

    method EvalRand(draw: nat) returns (st: Status)
      modifies this
      ensures Outcome(st, items) == Apply(Rand, old(items), draw)
    {
      var a := Pop();
      if a.Err? { return Failure(a.error); }
      match a.value {
        case Int(x) =>
          if x <= 0 {
            // the generator panics on the empty range [0, x)
            return Panic;
          }
          var num := draw % x;
          Push(Int(num));
          st := Success;
        case _ =>
          st := Failure(Type);
      }
    }

    method EvalCond() returns (st: Status)
      modifies this
      ensures Outcome(st, items) == Apply(Cond, old(items), 0)
    {
      ghost var s := items;
      var a := Pop();
      if a.Err? { return Failure(a.error); }
      var b := Pop();
      if b.Err? { return Failure(b.error); }
      var c := Pop();
      if c.Err? { return Failure(c.error); }
      assert items == s[..|s| - 3];
      match c.value {
        case Bool(cv) =>
          if cv {
            Push(b.value);
          } else {
            Push(a.value);
          }
          st := Success;
        case _ =>
          st := Failure(Type);
      }
    }
  }

  /** Pushing and then popping returns the pushed item and restores the stack. */
  method PushThenPop(stack: Stack, item: Item) returns (r: Result<Item>)
    modifies stack
    ensures r == Ok(item) && stack.items == old(stack.items)
  {
    stack.Push(item);
    r := stack.Pop();
  }
}
