/**
  The parts of Rust's standard library that the line evaluator
  (rust-1/src/parser.rs) relies on, stated on `string` = `seq<char>`:
  `char::is_whitespace`, `str::trim`, `str::split_whitespace`,
  `<i32 as FromStr>::from_str` and `<bool as FromStr>::from_str`.
  Parse errors are collapsed to `None`: the evaluator only asks whether a
  parse succeeded.
 */
module Text {
  import opened Rpn

  datatype Option<T> = None | Some(value: T)

  /** Unicode `White_Space`, the set `char::is_whitespace` tests. */
  predicate IsWhitespace(c: char)
  {
    var n := c as int;
    n == 0x20 || 0x09 <= n <= 0x0D || n == 0x85 || n == 0xA0 || n == 0x1680
    || 0x2000 <= n <= 0x200A || n == 0x2028 || n == 0x2029 || n == 0x202F
    || n == 0x205F || n == 0x3000
  }

  predicate NoWhitespace(w: string)
  {
    forall i :: 0 <= i < |w| ==> !IsWhitespace(w[i])
  }

  predicate AllWhitespace(w: string)
  {
    forall i :: 0 <= i < |w| ==> IsWhitespace(w[i])
  }

  /** `str::trim_start`: the suffix left after dropping leading whitespace. */
  function TrimStart(s: string): (r: string)
    ensures |r| <= |s| && r == s[|s| - |r|..]
    ensures AllWhitespace(s[..|s| - |r|])
    ensures r == [] || !IsWhitespace(r[0])
  {
    if s != [] && IsWhitespace(s[0]) then TrimStart(s[1..]) else s
  }

  /** `str::trim_end`: the prefix left after dropping trailing whitespace. */
  function TrimEnd(s: string): (r: string)
    ensures |r| <= |s| && r == s[..|r|]
    ensures AllWhitespace(s[|r|..])
    ensures r == [] || !IsWhitespace(r[|r| - 1])
  {
    if s != [] && IsWhitespace(s[|s| - 1]) then
      var r := TrimEnd(s[..|s| - 1]);
      assert s[|r|..] == s[..|s| - 1][|r|..] + [s[|s| - 1]];
      r
    else s
  }

  /** `str::trim`. */
  function Trim(s: string): string
  {
    TrimEnd(TrimStart(s))
  }

  /** Length of the longest whitespace-free prefix of `s`. */
  function WordEnd(s: string): (n: nat)
    ensures n <= |s|
    ensures NoWhitespace(s[..n])
    ensures n < |s| ==> IsWhitespace(s[n])
  {
    if s == [] || IsWhitespace(s[0]) then 0 else 1 + WordEnd(s[1..])
  }

  /** `str::split_whitespace`: the maximal whitespace-free runs of `s`, left to right. */
  function SplitWhitespace(s: string): (words: seq<string>)
    ensures forall i :: 0 <= i < |words| ==> words[i] != [] && NoWhitespace(words[i])
    decreases |s|
  {
    if s == [] then []
    else if IsWhitespace(s[0]) then SplitWhitespace(s[1..])
    else
      var n := WordEnd(s);
      [s[..n]] + SplitWhitespace(s[n..])
  }

  /** The characters of `s` that are not whitespace, in order. */
  function Letters(s: string): string
  {
    if s == [] then []
    else if IsWhitespace(s[0]) then Letters(s[1..])
    else [s[0]] + Letters(s[1..])
  }

  /** Words joined by single spaces. */
  function Unwords(words: seq<string>): string
  {
    if words == [] then []
    else if |words| == 1 then words[0]
    else words[0] + " " + Unwords(words[1..])
  }

  function Concat(words: seq<string>): string
  {
    if words == [] then [] else words[0] + Concat(words[1..])
  }

  predicate IsDigit(c: char)
  {
    '0' <= c <= '9'
  }

  predicate AllDigits(d: string)
  {
    forall i :: 0 <= i < |d| ==> IsDigit(d[i])
  }

  /** The value of a string of decimal digits, most significant first. */
  function DigitsValue(d: string): nat
    requires AllDigits(d)
  {
    if d == [] then 0
    else DigitsValue(d[..|d| - 1]) * 10 + ((d[|d| - 1] as int) - ('0' as int))
  }

  /**
    `<i32 as FromStr>::from_str`: an optional `+` or `-`, then one or more
    ASCII decimal digits, whose value must lie in the `i32` range. A lone
    sign is rejected.
   */
  function ParseI32(t: string): (r: Option<Int32>)
    ensures r.Some? ==> |t| > 0 && (t[0] == '+' || t[0] == '-' || IsDigit(t[0]))
    ensures r.Some? ==> AllDigits(t[1..]) && (|t| == 1 ==> IsDigit(t[0]))
  {
    if t == [] then None
    else if (t[0] == '+' || t[0] == '-') && |t| == 1 then None
    else
      var negative := t[0] == '-';
      var digits := if t[0] == '+' || t[0] == '-' then t[1..] else t;
      if !AllDigits(digits) then None
      else
        var m: int := DigitsValue(digits);
        var v := if negative then -m else m;
        if I32_MIN <= v <= I32_MAX then Some(v) else None
  }

  /** `<bool as FromStr>::from_str`: exactly `true` or `false`. */
  function ParseBool(t: string): (r: Option<bool>)
    ensures r == Some(true) <==> t == "true"
    ensures r == Some(false) <==> t == "false"
    ensures r == None <==> t != "true" && t != "false"
  {
    if t == "true" then Some(true)
    else if t == "false" then Some(false)
    else None
  }

  /**
    Decimal digits of `m` without leading zeros. The evaluator never prints
    numbers; this and `ToDecimal` only spell out the tokens that the round-trip
    lemmas feed to the parser.
   */
  function NatDigits(m: nat): (d: string)
    ensures d != []
    ensures d[0] == '0' ==> m == 0
  {
    if m < 10 then [('0' as int + m) as char]
    else NatDigits(m / 10) + [('0' as int + m % 10) as char]
  }

  /** The decimal spelling of an `i32`, with a `-` for negative values. */
  function ToDecimal(n: Int32): string
  {
    if n < 0 then "-" + NatDigits(-(n as int)) else NatDigits(n)
  }
}
