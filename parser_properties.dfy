/** Properties of token classification and of evaluating a line. */
module ParserProperties {
  import opened Rpn
  import opened Text
  import opened TextProperties
  import opened Parser
  import RpnProperties

  /** The symbol table is a bijection between the seven symbols and the operators. */
  lemma SymbolTable(tok: string, op: Op)
    ensures OpOf(tok) == Some(op) <==> tok == Symbol(op)
  {
  }

  /** No operator symbol reads as a literal, so each one reaches its operator. */
  lemma ClassifySymbol(op: Op)
    ensures Classify(Symbol(op)) == Operator(op)
  {
    var t := Symbol(op);
    assert !IsDigit(t[0]);
    assert t[0] == '+' ==> |t| == 1;
    assert t[0] == '-' ==> false;
  }

  /** Every `i32`, written in decimal, is read as that integer. */
  lemma ClassifyInt(n: Int32)
    ensures Classify(ToDecimal(n)) == Literal(Int(n))
  {
    ParseRoundTrip(n);
  }

  /** Integer parsing comes first: `-3` is a literal, not an unknown token. */
  lemma ClassifyNegative()
    ensures Classify("-3") == Literal(Int(-3))
  {
    ClassifyInt(-3);
    assert ToDecimal(-3) == "-3";
  }

  /** Exactly `true` and `false` are boolean literals. */
  lemma ClassifyBool(tok: string, b: bool)
    ensures Classify(tok) == Literal(Bool(b)) <==> tok == (if b then "true" else "false")
  {
    if tok == "true" || tok == "false" {
      assert !IsDigit(tok[0]) && tok[0] != '+' && tok[0] != '-';
    }
  }

  /** What is not a literal and not in the symbol table is a syntax error that leaves the stack alone. */
  lemma UnknownToken(tok: string, s: seq<Item>, draw: nat)
    requires ParseI32(tok).None? && ParseBool(tok).None? && OpOf(tok).None?
    ensures Classify(tok) == Unrecognised
    ensures Step(tok, s, draw) == Outcome(Failure(Syntax), s)
  {
  }

  /** A blank line has no tokens and leaves the stack as it was. */
  lemma BlankLine(line: string, s: seq<Item>)
    requires AllWhitespace(line)
    ensures Tokens(line) == [] && EvalLine(line, s, []) == Outcome(Success, s)
  {
    SplitTrim(line);
    SplitBlank(line);
  }

  /** The tokens of `s1 + " " + s2` are those of `s1` followed by those of `s2`. */
  lemma TokensAppend(s1: string, s2: string)
    ensures Tokens(s1 + " " + s2) == Tokens(s1) + Tokens(s2)
  {
    SplitTrim(s1 + " " + s2);
    SplitTrim(s1);
    SplitTrim(s2);
    SplitJoin(s1, ' ', s2);
    assert s1 + " " + s2 == s1 + [' '] + s2;
  }

  /**
    Evaluating `s1 + " " + s2` is evaluating `s1` and then, only if that
    succeeded, `s2` on the stack `s1` left; an error in `s1` is the result
    of the whole line.
   */
  lemma EvalLineAppend(s1: string, s2: string, s: seq<Item>, d1: seq<nat>, d2: seq<nat>)
    requires |d1| == |Tokens(s1)| && |d2| == |Tokens(s2)|
    ensures |d1 + d2| == |Tokens(s1 + " " + s2)|
    ensures var o := EvalLine(s1, s, d1);
      EvalLine(s1 + " " + s2, s, d1 + d2) == if o.status == Success then EvalLine(s2, o.stack, d2) else o
  {
    TokensAppend(s1, s2);
    RunTokensAppend(Tokens(s1), Tokens(s2), s, d1, d2);
  }

  /**
    The first token that fails ends the line with its own status and the
    stack as it then stood: the tokens after it are not evaluated.
   */
  lemma FirstFailure(t1: seq<string>, tok: string, t2: seq<string>, s: seq<Item>,
                      d1: seq<nat>, d: nat, d2: seq<nat>)
    requires |d1| == |t1| && |d2| == |t2|
    requires RunTokens(t1, s, d1).status == Success
    requires Step(tok, RunTokens(t1, s, d1).stack, d).status != Success
    ensures RunTokens(t1 + [tok] + t2, s, d1 + [d] + d2) == Step(tok, RunTokens(t1, s, d1).stack, d)
  {
    RunTokensAppend(t1, [tok] + t2, s, d1, [d] + d2);
    assert t1 + [tok] + t2 == t1 + ([tok] + t2) && d1 + [d] + d2 == d1 + ([d] + d2);
  }

  /** The token of each operator applies that operator. */
  lemma OperatorStep(op: Op, s: seq<Item>, draw: nat)
    ensures Step(Symbol(op), s, draw) == Apply(op, s, draw)
  {
    ClassifySymbol(op);
  }

  /** The decimal token of each `i32` pushes that integer. */
  lemma LiteralStep(n: Int32, s: seq<Item>, draw: nat)
    ensures Step(ToDecimal(n), s, draw) == Outcome(Success, s + [Int(n)])
  {
    ClassifyInt(n);
  }

  /** `quit` reports `Quit` and leaves the stack as it is. */
  lemma QuitStep(s: seq<Item>, draw: nat)
    ensures Step("quit", s, draw) == Outcome(Failure(Error.Quit), s)
  {
  }

  /** `quit` after tokens that succeeded stops the line with `Quit`, whatever the stack. */
  lemma QuitStops(t1: seq<string>, t2: seq<string>, s: seq<Item>, d1: seq<nat>, d: nat, d2: seq<nat>)
    requires |d1| == |t1| && |d2| == |t2|
    requires RunTokens(t1, s, d1).status == Success
    ensures RunTokens(t1 + ["quit"] + t2, s, d1 + [d] + d2)
         == Outcome(Failure(Error.Quit), RunTokens(t1, s, d1).stack)
  {
    QuitStep(RunTokens(t1, s, d1).stack, d);
    FirstFailure(t1, "quit", t2, s, d1, d, d2);
  }

  /** A line that contains `quit` anywhere never succeeds. */
  lemma {:induction false} QuitNeverSucceeds(toks: seq<string>, s: seq<Item>, draws: seq<nat>)
    requires |draws| == |toks| && "quit" in toks
    ensures RunTokens(toks, s, draws).status != Success
    decreases |toks|
  {
    var o := Step(toks[0], s, draws[0]);
    if toks[0] == "quit" {
      ClassifySymbol(Op.Quit);
    } else if o.status == Success {
      assert "quit" in toks[1..];
      QuitNeverSucceeds(toks[1..], o.stack, draws[1..]);
    }
  }

  /** How a token changes the depth of the stack when it succeeds. */
  function Effect(tok: string): int
  {
    match Classify(tok)
    case Literal(_) => 1
    case Operator(op) => Produces(op) - Arity(op)
    case Unrecognised => 0
  }

  function NetEffect(toks: seq<string>): int
  {
    if toks == [] then 0 else Effect(toks[0]) + NetEffect(toks[1..])
  }

  /** After tokens that all succeeded, the stack has grown by exactly their net arity balance. */
  lemma {:induction false} RunTokensDepth(toks: seq<string>, s: seq<Item>, draws: seq<nat>)
    requires |draws| == |toks|
    requires RunTokens(toks, s, draws).status == Success
    ensures |RunTokens(toks, s, draws).stack| == |s| + NetEffect(toks)
    decreases |toks|
  {
    if toks != [] {
      var o := Step(toks[0], s, draws[0]);
      match Classify(toks[0]) {
        case Literal(_) =>
        case Operator(op) => RpnProperties.ApplyFrame(op, s, draws[0]);
        case Unrecognised =>
      }
      RunTokensDepth(toks[1..], o.stack, draws[1..]);
    }
  }

  /** A single word is a line of one token. */
  lemma SingleToken(w: string)
    requires w != [] && NoWhitespace(w)
    ensures Tokens(w) == [w]
  {
    SplitTrim(w);
    OneWord(w);
  }

  /** A decimal literal contains no whitespace. */
  lemma DecimalIsWord(n: Int32)
    ensures ToDecimal(n) != [] && NoWhitespace(ToDecimal(n))
  {
    var d := NatDigits(if n < 0 then -(n as int) else n);
    DigitsRoundTrip(if n < 0 then -(n as int) else n);
    assert forall i :: 0 <= i < |d| ==> IsDigit(d[i]);
    if n < 0 {
      var w := "-" + d;
      assert forall i :: 1 <= i < |w| ==> w[i] == d[i - 1];
    }
  }

  /** Words joined by single spaces are, as a line, exactly those words as tokens. */
  lemma TokensUnwords(words: seq<string>)
    requires forall i :: 0 <= i < |words| ==> words[i] != [] && NoWhitespace(words[i])
    ensures Tokens(Unwords(words)) == words
  {
    SplitUnwords(words);
    SplitTrim(Unwords(words));
  }

  /** Only `#` consults the random-number generator. */
  lemma StepDraw(tok: string, s: seq<Item>, d1: nat, d2: nat)
    requires tok != Symbol(Rand)
    ensures Step(tok, s, d1) == Step(tok, s, d2)
  {
  }

  /** So a line without `#` does the same whatever the generator would answer. */
  lemma {:induction false} RunTokensDraws(toks: seq<string>, s: seq<Item>, d1: seq<nat>, d2: seq<nat>)
    requires |d1| == |toks| && |d2| == |toks|
    requires Symbol(Rand) !in toks
    ensures RunTokens(toks, s, d1) == RunTokens(toks, s, d2)
    decreases |toks|
  {
    if toks != [] {
      StepDraw(toks[0], s, d1[0], d2[0]);
      var o := Step(toks[0], s, d1[0]);
      if o.status == Success {
        assert forall t :: t in toks[1..] ==> t in toks;
        RunTokensDraws(toks[1..], o.stack, d1[1..], d2[1..]);
      }
    }
  }

  /** A run whose first token succeeds continues with the rest. */
  lemma RunTokensCons(tok: string, rest: seq<string>, s: seq<Item>, d: nat, ds: seq<nat>)
    requires |ds| == |rest|
    requires Step(tok, s, d).status == Success
    ensures RunTokens([tok] + rest, s, [d] + ds) == RunTokens(rest, Step(tok, s, d).stack, ds)
  {
    assert ([tok] + rest)[1..] == rest && ([d] + ds)[1..] == ds;
  }

  /** The tokens `m`, `n`, `+` push the wrapped sum of `m` and `n`, whatever the generator would answer. */
  lemma AddRun(m: Int32, n: Int32, s: seq<Item>, draws: seq<nat>)
    requires |draws| == 3
    ensures RunTokens([ToDecimal(m), ToDecimal(n), Symbol(Add)], s, draws)
         == Outcome(Success, s + [Int(WrapAdd(n, m))])
  {
    var a, b, c := ToDecimal(m), ToDecimal(n), Symbol(Add);
    var s1 := s + [Int(m)];
    var s2 := s1 + [Int(n)];
    LiteralStep(m, s, draws[0]);
    LiteralStep(n, s1, draws[1]);
    assert s2 == s + [Int(m), Int(n)];
    OperatorStep(Add, s2, draws[2]);
    RpnProperties.AddInts(s, m, n, draws[2]);
    RunTokensCons(c, [], s2, draws[2], []);
    RunTokensCons(b, [c], s1, draws[1], [draws[2]]);
    RunTokensCons(a, [b, c], s, draws[0], draws[1..]);
    assert [a] + [b, c] == [a, b, c] && [draws[0]] + draws[1..] == draws;
    assert [b] + [c] == [b, c] && [c] + [] == [c] && [draws[1]] + [draws[2]] == draws[1..];
  }

  /** The line `m n +` is the three tokens `m`, `n`, `+`. */
  lemma AddLineTokens(m: Int32, n: Int32)
    ensures Tokens(ToDecimal(m) + " " + ToDecimal(n) + " +") == [ToDecimal(m), ToDecimal(n), Symbol(Add)]
  {
    var a, b := ToDecimal(m), ToDecimal(n);
    DecimalIsWord(m);
    DecimalIsWord(n);
    var w := [a, b, Symbol(Add)];
    assert w[1..] == [b, Symbol(Add)] && w[1..][1..] == [Symbol(Add)];
    assert Unwords(w[1..]) == b + " " + "+";
    assert a + " " + (b + " " + "+") == a + " " + b + " +";
    TokensUnwords(w);
  }

  /**
    For every pair of `i32` literals, the line `m n +` pushes exactly their
    wrapped sum onto whatever the stack held (so `3 4 +` pushes `Int(7)`),
    and on a fresh stack the line reports that sum with nothing left over.
   */
  lemma AddLine(m: Int32, n: Int32, s: seq<Item>, draws: seq<nat>)
    requires |draws| == 3
    ensures var line := ToDecimal(m) + " " + ToDecimal(n) + " +";
      && Tokens(line) == [ToDecimal(m), ToDecimal(n), "+"]
      && EvalLine(line, s, draws) == Outcome(Success, s + [Int(WrapAdd(n, m))])
      && (s == [] ==> Finish(EvalLine(line, s, draws).stack) == (Ok(Int(WrapAdd(n, m))), []))
  {
    AddLineTokens(m, n);
    AddRun(m, n, s, draws);
  }

  /** The tokens `m n + k` push the wrapped sum of `m` and `n`, then `k`. */
  lemma AddThenLiteral(m: Int32, n: Int32, k: Int32, s: seq<Item>, draws: seq<nat>)
    requires |draws| == 4
    ensures RunTokens([ToDecimal(m), ToDecimal(n), Symbol(Add), ToDecimal(k)], s, draws)
         == Outcome(Success, s + [Int(WrapAdd(n, m)), Int(k)])
  {
    var t := [ToDecimal(m), ToDecimal(n), Symbol(Add)];
    var sum := s + [Int(WrapAdd(n, m))];
    AddRun(m, n, s, draws[..3]);
    LiteralStep(k, sum, draws[3]);
    RunTokensCons(ToDecimal(k), [], sum, draws[3], []);
    RunTokensAppend(t, [ToDecimal(k)], s, draws[..3], [draws[3]]);
    assert draws[..3] + [draws[3]] == draws;
    assert t + [ToDecimal(k)] == [ToDecimal(m), ToDecimal(n), Symbol(Add), ToDecimal(k)];
    assert sum + [Int(k)] == s + [Int(WrapAdd(n, m)), Int(k)];
  }

  /** The tokens `3 4 + 5` leave `7 5`, whatever the generator would answer. */
  lemma SumTokens(draws: seq<nat>)
    requires |draws| == 4
    ensures RunTokens(["3", "4", "+", "5"], [], draws) == Outcome(Success, [Int(7), Int(5)])
  {
    AddThenLiteral(3, 4, 5, [], draws);
    assert ToDecimal(3) == "3" && ToDecimal(4) == "4" && ToDecimal(5) == "5";
    assert [ToDecimal(3), ToDecimal(4), Symbol(Add), ToDecimal(5)] == ["3", "4", "+", "5"];
    assert WrapAdd(4, 3) == 7;
  }

  /** The line `3 4 + 5` is the four tokens `3`, `4`, `+`, `5`. */
  lemma SumLineTokens()
    ensures Tokens("3 4 + 5") == ["3", "4", "+", "5"]
  {
    var words := ["3", "4", "+", "5"];
    assert Unwords(words) == "3 4 + 5";
    TokensUnwords(words);
  }

  /** Any line made of the tokens `3 4 + 5` leaves `7 5`, whatever the generator would answer. */
  lemma SumRun(line: string, draws: seq<nat>)
    requires Tokens(line) == ["3", "4", "+", "5"] && |draws| == 4
    ensures EvalLine(line, [], draws) == Outcome(Success, [Int(7), Int(5)])
  {
    SumTokens(draws);
  }

  /** The line `3 4 + 5` leaves `7 5`, which the check after the line reports as `Extra`. */
  lemma SumExample(draws: seq<nat>)
    requires |draws| == 4
    ensures Tokens("3 4 + 5") == ["3", "4", "+", "5"]
    ensures EvalLine("3 4 + 5", [], draws) == Outcome(Success, [Int(7), Int(5)])
    ensures Finish(EvalLine("3 4 + 5", [], draws).stack).0 == Err(Extra)
  {
    SumLineTokens();
    SumRun("3 4 + 5", draws);
  }

  /** The tokens `true 1 +` are a type error that leaves the stack as it was before them. */
  lemma TypeErrorTokens(s: seq<Item>, draws: seq<nat>)
    requires |draws| == 3
    ensures RunTokens(["true", "1", "+"], s, draws) == Outcome(Failure(Type), s)
  {
    assert ToDecimal(1) == "1" && Symbol(Add) == "+";
    LiteralStep(1, s + [Bool(true)], draws[1]);
    OperatorStep(Add, s + [Bool(true), Int(1)], draws[2]);
    RpnProperties.AddTypeError(s, Bool(true), Int(1), draws[2]);
    assert s + [Bool(true)] + [Int(1)] == s + [Bool(true), Int(1)];
    RunTokensCons("1", ["+"], s + [Bool(true)], draws[1], [draws[2]]);
    RunTokensCons("true", ["1", "+"], s, draws[0], draws[1..]);
    assert ["true"] + ["1", "+"] == ["true", "1", "+"] && [draws[0]] + draws[1..] == draws;
    assert [draws[1]] + [draws[2]] == draws[1..];
  }

  /** The line `true 1 +` is the three tokens `true`, `1`, `+`. */
  lemma TypeErrorLineTokens()
    ensures Tokens("true 1 +") == ["true", "1", "+"]
  {
    var words := ["true", "1", "+"];
    assert Unwords(words) == "true 1 +";
    TokensUnwords(words);
  }

  /** Any line made of the tokens `true 1 +` is a type error that leaves the stack as it was. */
  lemma TypeErrorRun(line: string, s: seq<Item>, draws: seq<nat>)
    requires Tokens(line) == ["true", "1", "+"] && |draws| == 3
    ensures EvalLine(line, s, draws) == Outcome(Failure(Type), s)
  {
    TypeErrorTokens(s, draws);
  }

  /** The line `true 1 +` is a type error that leaves the stack as it was before the line. */
  lemma TypeErrorExample(s: seq<Item>, draws: seq<nat>)
    requires |draws| == 3
    ensures Tokens("true 1 +") == ["true", "1", "+"]
    ensures EvalLine("true 1 +", s, draws) == Outcome(Failure(Type), s)
  {
    TypeErrorLineTokens();
    TypeErrorRun("true 1 +", s, draws);
  }

  /** The line `foo` is a syntax error that changes nothing. */
  lemma SyntaxExample(s: seq<Item>, draws: seq<nat>)
    requires |draws| == 1
    ensures Tokens("foo") == ["foo"]
    ensures EvalLine("foo", s, draws) == Outcome(Failure(Syntax), s)
  {
    SingleToken("foo");
  }
}
