/**
  The line evaluator (rust-1/src/parser.rs): split a line into tokens,
  classify each one as an integer literal, a boolean literal or an operator
  symbol, and drive the stack one token at a time, stopping at the first
  error without undoing what earlier tokens did.

  `RunTokens` is the evaluation as a left-to-right fold over the tokens;
  `EvaluateLine` is the source's `for` loop with early returns, proved to
  compute it. `draws[i]` is the random-number generator's answer for the
  i-th token, consulted only when that token is `#`.
 */
module Parser {
  import opened Rpn
  import opened Text

  /** The tokens of a line: `buf.trim().split_whitespace()`. */
  function Tokens(line: string): (toks: seq<string>)
    ensures forall i :: 0 <= i < |toks| ==> toks[i] != [] && NoWhitespace(toks[i])
  {
    SplitWhitespace(Trim(line))
  }

  /** The operator symbols of the `match tok` in `evaluate_line`. */
  function OpOf(tok: string): (r: Option<Op>)
    ensures r.Some? ==> tok == Symbol(r.value)
    ensures r.None? ==> forall op: Op :: tok != Symbol(op)
  {
    if tok == "+" then Some(Add)
    else if tok == "=" then Some(Eq)
    else if tok == "~" then Some(Neg)
    else if tok == "<->" then Some(Swap)
    else if tok == "#" then Some(Rand)
    else if tok == "?" then Some(Cond)
    else if tok == "quit" then Some(Op.Quit)
    else None
  }

  /** The symbol that stands for each operator. */
  function Symbol(op: Op): string
  {
    match op
    case Add => "+"
    case Eq => "="
    case Neg => "~"
    case Swap => "<->"
    case Rand => "#"
    case Cond => "?"
    case Quit => "quit"
  }

  /** What a token is taken for. */
  datatype Token = Literal(item: Item) | Operator(op: Op) | Unrecognised

  /** Classification in the source's order: `i32` first, then `bool`, then the symbol table. */
  function Classify(tok: string): (t: Token)
  {
    match ParseI32(tok)
    case Some(n) => Literal(Int(n))
    case None =>
      match ParseBool(tok)
      case Some(b) => Literal(Bool(b))
      case None =>
        match OpOf(tok)
        case Some(op) => Operator(op)
        case None => Unrecognised
  }

  /** The effect of one token on the stack. */
  function Step(tok: string, s: seq<Item>, draw: nat): Outcome
  {
    match Classify(tok)
    case Literal(item) => Outcome(Success, s + [item])
    case Operator(op) => Apply(op, s, draw)
    case Unrecognised => Outcome(Failure(Syntax), s)
  }

  /** The tokens applied left to right; the first step that does not succeed ends the run. */
  function RunTokens(toks: seq<string>, s: seq<Item>, draws: seq<nat>): Outcome
    requires |draws| == |toks|
    decreases |toks|
  {
    if toks == [] then Outcome(Success, s)
    else
      var o := Step(toks[0], s, draws[0]);
      if o.status != Success then o else RunTokens(toks[1..], o.stack, draws[1..])
  }

  /** `evaluate_line` as a function of the stack before the line. */
  function EvalLine(line: string, s: seq<Item>, draws: seq<nat>): Outcome
    requires |draws| == |Tokens(line)|
  {
    RunTokens(Tokens(line), s, draws)
  }

  /** Running `t1 + t2` is running `t1` and, if that succeeded, `t2` on the stack it left. */
  lemma {:induction false} RunTokensAppend(t1: seq<string>, t2: seq<string>, s: seq<Item>, d1: seq<nat>, d2: seq<nat>)
    requires |d1| == |t1| && |d2| == |t2|
    ensures var o := RunTokens(t1, s, d1);
      RunTokens(t1 + t2, s, d1 + d2) == if o.status == Success then RunTokens(t2, o.stack, d2) else o
    decreases |t1|
  {
    if t1 == [] {
      assert t1 + t2 == t2 && d1 + d2 == d2;
    } else {
      assert (t1 + t2)[1..] == t1[1..] + t2 && (d1 + d2)[1..] == d1[1..] + d2;
      var o := Step(t1[0], s, d1[0]);
      if o.status == Success {
        RunTokensAppend(t1[1..], t2, o.stack, d1[1..], d2);
      }
    }
  }

  /** One more token extends a run by one step. */
  lemma RunTokensSnoc(toks: seq<string>, s: seq<Item>, draws: seq<nat>, i: nat)
    requires |draws| == |toks| && i < |toks|
    ensures var o := RunTokens(toks[..i], s, draws[..i]);
      RunTokens(toks[..i + 1], s, draws[..i + 1]) == if o.status == Success then Step(toks[i], o.stack, draws[i]) else o
  {
    RunTokensAppend(toks[..i], [toks[i]], s, draws[..i], [draws[i]]);
    assert toks[..i] + [toks[i]] == toks[..i + 1] && draws[..i] + [draws[i]] == draws[..i + 1];
  }

  /** A run that has failed by token `i` ignores the tokens after it. */
  lemma RunTokensStops(toks: seq<string>, s: seq<Item>, draws: seq<nat>, i: nat)
    requires |draws| == |toks| && i <= |toks|
    requires RunTokens(toks[..i], s, draws[..i]).status != Success
    ensures RunTokens(toks, s, draws) == RunTokens(toks[..i], s, draws[..i])
  {
    RunTokensAppend(toks[..i], toks[i..], s, draws[..i], draws[i..]);
    assert toks[..i] + toks[i..] == toks && draws[..i] + draws[i..] == draws;
  }

  /**
    The check after a line (the pop and `empty` test that follow
    `evaluate_line` in `rpn_repl`): pop once, and report the popped item only
    if nothing is left below it.
   */
  function Finish(s: seq<Item>): (r: (Result<Item>, seq<Item>))
    ensures r.0 == Err(Error.Empty) <==> s == []
    ensures r.0.Ok? <==> |s| == 1
    ensures r.0.Ok? ==> r.0.value == s[0] && r.1 == []
    ensures r.0 == Err(Extra) <==> |s| > 1
    ensures s != [] ==> r.1 == s[..|s| - 1]
    ensures s == [] ==> r.1 == s
  {
    if s == [] then (Err(Error.Empty), s)
    else
      var rest := s[..|s| - 1];
      if rest == [] then (Ok(s[|s| - 1]), rest) else (Err(Extra), rest)
  }

  /** One pass of the loop in `evaluate_line`: classify `tok` and act on it. */
  method EvalToken(stack: Stack, tok: string, draw: nat) returns (st: Status)
    modifies stack
    ensures Outcome(st, stack.items) == Step(tok, old(stack.items), draw)
  {
    var n := ParseI32(tok);
    if n.Some? {
      stack.Push(Int(n.value));
      return Success;
    }
    var b := ParseBool(tok);
    if b.Some? {
      stack.Push(Bool(b.value));
      return Success;
    }
    var op := OpOf(tok);
    if op.None? {
      return Failure(Syntax);
    }
    st := stack.Eval(op.value, draw);
  }

  /** `evaluate_line`. */
  method EvaluateLine(stack: Stack, buf: string, draws: seq<nat>) returns (st: Status)
    requires |draws| == |Tokens(buf)|
    modifies stack
    ensures Outcome(st, stack.items) == EvalLine(buf, old(stack.items), draws)
  {
    var tokens := SplitWhitespace(Trim(buf));
    ghost var s0 := stack.items;
    for i := 0 to |tokens|
      invariant RunTokens(tokens[..i], s0, draws[..i]) == Outcome(Success, stack.items)
    {
      RunTokensSnoc(tokens, s0, draws, i);
      st := EvalToken(stack, tokens[i], draws[i]);
      if st != Success {
        // the first error ends the line; the tokens after it are never looked at
        RunTokensStops(tokens, s0, draws, i + 1);
        return;
      }
    }
    assert tokens[..|tokens|] == tokens && draws[..|tokens|] == draws;
    st := Success;
  }

  /** The pop-then-check that `rpn_repl` performs after each line. */
  method FinishLine(stack: Stack) returns (r: Result<Item>)
    modifies stack
    ensures (r, stack.items) == Finish(old(stack.items))
  {
    var res := stack.Pop();
    if res.Err? {
      return res;
    }
    if stack.IsEmpty() {
      r := res;
    } else {
      r := Err(Extra);
    }
  }
}
