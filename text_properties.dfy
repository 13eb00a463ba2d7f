/** What the line evaluator relies on about tokenising and literal parsing. */
module TextProperties {
  import opened Rpn
  import opened Text

  /** The digits printed for `m` are decimal digits and read back as `m`. */
  lemma {:induction false} DigitsRoundTrip(m: nat)
    ensures AllDigits(NatDigits(m)) && DigitsValue(NatDigits(m)) == m
  {
    if m >= 10 {
      DigitsRoundTrip(m / 10);
      var d := NatDigits(m);
      assert d[..|d| - 1] == NatDigits(m / 10);
    }
  }

  /** A sign-free digit string in range parses to its value. */
  lemma ParseUnsigned(d: string)
    requires d != [] && AllDigits(d) && DigitsValue(d) <= I32_MAX
    ensures ParseI32(d) == Some(DigitsValue(d))
  {
    assert IsDigit(d[0]);
  }

  /** `-` followed by a digit string parses to minus its value, down to `i32::MIN`. */
  lemma ParseMinus(d: string)
    requires d != [] && AllDigits(d) && DigitsValue(d) <= -I32_MIN
    ensures ParseI32("-" + d) == Some(-(DigitsValue(d) as int))
  {
    assert ("-" + d)[1..] == d;
  }

  /** `+` followed by a digit string parses to its value: `+5` is the literal 5. */
  lemma ParsePlus(d: string)
    requires d != [] && AllDigits(d) && DigitsValue(d) <= I32_MAX
    ensures ParseI32("+" + d) == Some(DigitsValue(d))
  {
    assert ("+" + d)[1..] == d;
  }

  /** Every `i32`, printed in decimal, parses back to itself. */
  lemma ParseRoundTrip(n: Int32)
    ensures ParseI32(ToDecimal(n)) == Some(n)
  {
    if n < 0 {
      DigitsRoundTrip(-(n as int));
      ParseMinus(NatDigits(-(n as int)));
    } else {
      DigitsRoundTrip(n);
      ParseUnsigned(NatDigits(n));
    }
  }

  /** A sign on its own is not an integer, so `+` can only be the operator. */
  lemma ParseLoneSign()
    ensures ParseI32("+") == None && ParseI32("-") == None
  {
  }

  /**
    Too large a magnitude is rejected rather than wrapped, whatever the sign
    and however many leading zeros the digits carry.
   */
  lemma ParseOutOfRange(d: string)
    requires d != [] && AllDigits(d)
    ensures DigitsValue(d) > I32_MAX ==> ParseI32(d) == None && ParseI32("+" + d) == None
    ensures DigitsValue(d) > -I32_MIN ==> ParseI32("-" + d) == None
  {
    assert ("+" + d)[1..] == d;
    assert ("-" + d)[1..] == d;
    assert IsDigit(d[0]);
  }

  /** A word ends at the first whitespace character. */
  lemma {:induction false} WordEndStops(a: string, c: char, b: string)
    requires IsWhitespace(c)
    ensures WordEnd(a + [c] + b) == WordEnd(a)
  {
    if a != [] && !IsWhitespace(a[0]) {
      assert (a + [c] + b)[1..] == a[1..] + [c] + b;
      WordEndStops(a[1..], c, b);
    }
  }

  /** Splitting at a whitespace character splits the word list there. */
  lemma {:induction false} SplitJoin(a: string, c: char, b: string)
    requires IsWhitespace(c)
    ensures SplitWhitespace(a + [c] + b) == SplitWhitespace(a) + SplitWhitespace(b)
    decreases |a|
  {
    var s := a + [c] + b;
    if a == [] {
      assert s[1..] == b;
    } else if IsWhitespace(a[0]) {
      assert s[1..] == a[1..] + [c] + b;
      SplitJoin(a[1..], c, b);
    } else {
      WordEndStops(a, c, b);
      var n := WordEnd(a);
      assert s[..n] == a[..n];
      assert s[n..] == a[n..] + [c] + b;
      SplitJoin(a[n..], c, b);
    }
  }

  /** A non-empty whitespace-free string splits into itself. */
  lemma OneWord(w: string)
    requires w != [] && NoWhitespace(w)
    ensures SplitWhitespace(w) == [w]
  {
    assert WordEnd(w) == |w|;
    assert w[..|w|] == w && w[|w|..] == [];
  }

  /** Splitting words joined by single spaces gives the words back. */
  lemma {:induction false} SplitUnwords(words: seq<string>)
    requires forall i :: 0 <= i < |words| ==> words[i] != [] && NoWhitespace(words[i])
    ensures SplitWhitespace(Unwords(words)) == words
    decreases |words|
  {
    if |words| == 1 {
      OneWord(words[0]);
    } else if |words| > 1 {
      OneWord(words[0]);
      SplitUnwords(words[1..]);
      SplitJoin(words[0], ' ', Unwords(words[1..]));
      assert words[0] + " " + Unwords(words[1..]) == words[0] + [' '] + Unwords(words[1..]);
      assert [words[0]] + words[1..] == words;
    }
  }

  /** Leading whitespace does not change the words. */
  lemma {:induction false} SplitTrimStart(s: string)
    ensures SplitWhitespace(TrimStart(s)) == SplitWhitespace(s)
  {
    if s != [] && IsWhitespace(s[0]) {
      SplitTrimStart(s[1..]);
    }
  }

  /** Trailing whitespace does not change the words. */
  lemma {:induction false} SplitTrimEnd(s: string)
    ensures SplitWhitespace(TrimEnd(s)) == SplitWhitespace(s)
  {
    if s != [] && IsWhitespace(s[|s| - 1]) {
      var p := s[..|s| - 1];
      SplitTrimEnd(p);
      SplitJoin(p, s[|s| - 1], []);
      assert p + [s[|s| - 1]] + [] == s;
    }
  }

  /** So `trim` before `split_whitespace` changes nothing. */
  lemma SplitTrim(s: string)
    ensures SplitWhitespace(Trim(s)) == SplitWhitespace(s)
  {
    SplitTrimStart(s);
    SplitTrimEnd(TrimStart(s));
  }

  /** A line has no words exactly when it is blank. */
  lemma {:induction false} SplitBlank(s: string)
    ensures SplitWhitespace(s) == [] <==> AllWhitespace(s)
  {
    if s != [] && IsWhitespace(s[0]) {
      SplitBlank(s[1..]);
      assert s == [s[0]] + s[1..];
    }
  }

  /** Dropping the whitespace of `a + b` drops it from each part. */
  lemma {:induction false} LettersAppend(a: string, b: string)
    ensures Letters(a + b) == Letters(a) + Letters(b)
  {
    if a != [] {
      assert (a + b)[1..] == a[1..] + b;
      LettersAppend(a[1..], b);
    } else {
      assert a + b == b;
    }
  }

  /** A whitespace-free string is its own letters. */
  lemma {:induction false} LettersOfWord(w: string)
    requires NoWhitespace(w)
    ensures Letters(w) == w
  {
    if w != [] {
      LettersOfWord(w[1..]);
    }
  }

  /** The words, glued back together, are exactly the non-whitespace characters of the input. */
  lemma {:induction false} SplitLetters(s: string)
    ensures Concat(SplitWhitespace(s)) == Letters(s)
    decreases |s|
  {
    if s != [] {
      if IsWhitespace(s[0]) {
        SplitLetters(s[1..]);
      } else {
        var n := WordEnd(s);
        var words := SplitWhitespace(s);
        assert words[0] == s[..n] && words[1..] == SplitWhitespace(s[n..]);
        SplitLetters(s[n..]);
        LettersAppend(s[..n], s[n..]);
        LettersOfWord(s[..n]);
        assert s[..n] + s[n..] == s;
      }
    }
  }
}
