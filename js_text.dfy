/**
 * The JavaScript string and number primitives the bot relies on: `trim`, `startsWith`,
 * `endsWith`, `includes`, `split`, `join`, `padStart(2, '0')`, `toString` on integers,
 * `Number(s)`, `parseFloat(s)` and `parseInt(s)`.  Strings are sequences of UTF-16 code
 * units here as in JavaScript; `None` results stand for `NaN`.
 */
module JsText {
  import opened Wrappers

  predicate IsDigit(c: char) { '0' <= c <= '9' }

  predicate AllDigits(s: string) { forall i :: 0 <= i < |s| ==> IsDigit(s[i]) }

  function DigitValue(c: char): nat
    requires IsDigit(c)
  {
    (c as int) - ('0' as int)
  }

  function DigitChar(d: nat): (c: char)
    requires d < 10
    ensures IsDigit(c) && DigitValue(c) == d
  {
    (('0' as int) + d) as char
  }

  /** The value of a decimal numeral; the empty numeral counts as 0. */
  function DigitsValue(s: string): nat
    requires AllDigits(s)
  {
    if s == [] then 0 else 10 * DigitsValue(s[..|s| - 1]) + DigitValue(s[|s| - 1])
  }

  /** `n.toString()` for a non-negative integer: a numeral that reads back as `n`. */
  function NatToString(n: nat): (r: string)
    ensures 1 <= |r| && AllDigits(r) && DigitsValue(r) == n
  {
    if n < 10 then [DigitChar(n)]
    else
      var r := NatToString(n / 10) + [DigitChar(n % 10)];
      assert r[..|r| - 1] == NatToString(n / 10);
      r
  }

  /** `i.toString()` for any integer. */
  function IntToString(i: int): (r: string)
    ensures |r| >= 1
    ensures i >= 0 ==> r == NatToString(i)
    ensures i < 0 ==> r == "-" + NatToString(-i)
  {
    if i < 0 then "-" + NatToString(-i) else NatToString(i)
  }

  /** `s.padStart(2, '0')`. */
  function PadStart2(s: string): (r: string)
    ensures |r| == if |s| >= 2 then |s| else 2
    ensures r[|r| - |s|..] == s
    ensures forall i :: 0 <= i < |r| - |s| ==> r[i] == '0'
  {
    if |s| >= 2 then s else if |s| == 1 then "0" + s else "00"
  }

  /** A leading zero does not change the value of a numeral. */
  lemma {:induction false} LeadingZero(s: string)
    requires AllDigits(s)
    ensures AllDigits("0" + s) && DigitsValue("0" + s) == DigitsValue(s)
  {
    if s != [] {
      var z := "0" + s;
      assert z[..|z| - 1] == "0" + s[..|s| - 1];
      LeadingZero(s[..|s| - 1]);
    }
  }

  lemma PadDigits(s: string)
    requires AllDigits(s)
    ensures AllDigits(PadStart2(s)) && DigitsValue(PadStart2(s)) == DigitsValue(s)
  {
    if |s| == 1 {
      LeadingZero(s);
    } else if s == [] {
      LeadingZero("0");
    }
  }

  // ---------------------------------------------------------------------------
  // Whitespace and trimming

  /** The characters `String.prototype.trim` removes: WhiteSpace and LineTerminator. */
  predicate IsJsSpace(c: char)
  {
    c == ' ' || c == '\t' || c == '\n' || c == '\r' || c == '\U{000B}' || c == '\U{000C}'
    || c == '\U{00A0}' || c == '\U{1680}' || ('\U{2000}' <= c <= '\U{200A}')
    || c == '\U{2028}' || c == '\U{2029}' || c == '\U{202F}' || c == '\U{205F}'
    || c == '\U{3000}' || c == '\U{FEFF}'
  }

  predicate NoSpace(s: string) { forall i :: 0 <= i < |s| ==> !IsJsSpace(s[i]) }

  function TrimStart(s: string): (r: string)
    ensures |r| <= |s| && r == s[|s| - |r|..]
    ensures r != [] ==> !IsJsSpace(r[0])
    ensures forall i :: 0 <= i < |s| - |r| ==> IsJsSpace(s[i])
  {
    if s != [] && IsJsSpace(s[0]) then TrimStart(s[1..]) else s
  }

  function TrimEnd(s: string): (r: string)
    ensures |r| <= |s| && r == s[..|r|]
    ensures r != [] ==> !IsJsSpace(r[|r| - 1])
    ensures forall i :: |r| <= i < |s| ==> IsJsSpace(s[i])
  {
    if s != [] && IsJsSpace(s[|s| - 1]) then TrimEnd(s[..|s| - 1]) else s
  }

  /** `s.trim()`. */
  function Trim(s: string): string
  {
    TrimEnd(TrimStart(s))
  }

  lemma TrimNoSpace(s: string)
    requires NoSpace(s)
    ensures TrimStart(s) == s && Trim(s) == s
  {
  }

  // ---------------------------------------------------------------------------
  // Searching

  /** `s.startsWith(p)`. */
  predicate StartsWith(s: string, p: string) { |p| <= |s| && s[..|p|] == p }

  /** `s.endsWith(p)`. */
  predicate EndsWith(s: string, p: string) { |p| <= |s| && s[|s| - |p|..] == p }

  /** `s.includes(p)`: `p` occurs at some position of `s`. */
  predicate Contains(s: string, p: string)
    decreases |s|
  {
    StartsWith(s, p) || (s != [] && Contains(s[1..], p))
  }

  /** An occurrence at any position is found. */
  lemma {:induction false} ContainsAt(s: string, p: string, i: nat)
    requires i + |p| <= |s| && s[i..i + |p|] == p
    ensures Contains(s, p)
    decreases i
  {
    if i > 0 {
      assert s[1..][i - 1..i - 1 + |p|] == s[i..i + |p|];
      ContainsAt(s[1..], p, i - 1);
    }
  }

  /** A pattern whose first character never occurs is not found. */
  lemma {:induction false} NotContains(s: string, p: string)
    requires p != [] && p[0] !in s
    ensures !Contains(s, p)
    decreases |s|
  {
    if s != [] {
      NotContains(s[1..], p);
    }
  }

  /** Position of the first occurrence of `c`. */
  function IndexOf(s: string, c: char): (r: Option<nat>)
    ensures r.None? <==> c !in s
    ensures r.Some? ==> r.value < |s| && s[r.value] == c && c !in s[..r.value]
  {
    if s == [] then None
    else if s[0] == c then Some(0)
    else
      match IndexOf(s[1..], c)
      case None => None
      case Some(k) =>
        assert s[..k + 1] == [s[0]] + s[1..][..k];
        Some(k + 1)
  }

  // ---------------------------------------------------------------------------
  // split and join on a single character

  /** `s.split(sep)` for a one-character separator: never empty, pieces free of `sep`. */
  function Split(s: string, sep: char): (r: seq<string>)
    ensures |r| >= 1
    ensures forall k :: 0 <= k < |r| ==> sep !in r[k]
    decreases |s|
  {
    if s == [] then [[]]
    else
      var rest := Split(s[1..], sep);
      if s[0] == sep then [[]] + rest
      else [[s[0]] + rest[0]] + rest[1..]
  }

  /** `parts.join(sep)`. */
  function Join(parts: seq<string>, sep: char): string
    requires |parts| >= 1
  {
    if |parts| == 1 then parts[0] else parts[0] + [sep] + Join(parts[1..], sep)
  }

  lemma {:induction false} SplitPlain(a: string, sep: char)
    requires sep !in a
    ensures Split(a, sep) == [a]
    decreases |a|
  {
    if a != [] {
      SplitPlain(a[1..], sep);
      assert [a[0]] + a[1..] == a;
    }
  }

  /** Splitting a piece free of the separator off the front of a string. */
  lemma {:induction false} SplitFront(a: string, sep: char, b: string)
    requires sep !in a
    ensures Split(a + [sep] + b, sep) == [a] + Split(b, sep)
    decreases |a|
  {
    var s := a + [sep] + b;
    if a == [] {
      assert s[1..] == b;
    } else {
      assert s[1..] == a[1..] + [sep] + b;
      SplitFront(a[1..], sep, b);
      assert [a[0]] + a[1..] == a;
    }
  }

  /** `split` undoes `join` when no part contains the separator. */
  lemma {:induction false} SplitJoin(parts: seq<string>, sep: char)
    requires |parts| >= 1
    requires forall k :: 0 <= k < |parts| ==> sep !in parts[k]
    ensures Split(Join(parts, sep), sep) == parts
    decreases |parts|
  {
    if |parts| == 1 {
      SplitPlain(parts[0], sep);
    } else {
      SplitJoin(parts[1..], sep);
      SplitFront(parts[0], sep, Join(parts[1..], sep));
      assert [parts[0]] + parts[1..] == parts;
    }
  }

  // ---------------------------------------------------------------------------
  // Number(s), parseFloat(s) and parseInt(s), read left to right one character at a time.
  // Each reader is a fold: the state after `s` is one step from the state after all but
  // the last character of `s`.

  /** A JavaScript number other than `NaN`: a finite value or an infinity. */
  datatype JsNumber = Finite(value: real) | Infinite(negative: bool)

  /** The finite value of a reading, when it has one. */
  function FiniteValue(n: Option<JsNumber>): Option<real>
  {
    match n
    case Some(Finite(v)) => Some(v)
    case _ => None
  }

  /** `n > limit`: `NaN` compares false, `Infinity` exceeds every limit and `-Infinity` none. */
  predicate Above(n: Option<JsNumber>, limit: real)
  {
    match n
    case Some(Finite(v)) => v > limit
    case Some(Infinite(negative)) => !negative
    case None => false
  }

  /** `n * k` for a positive constant `k`. */
  function Times(n: Option<JsNumber>, k: real): Option<JsNumber>
    requires k > 0.0
  {
    match n
    case Some(Finite(v)) => Some(Finite(v * k))
    case _ => n
  }

  /** `n + m`: `NaN` when either is `NaN`, or when infinities of opposite signs meet. */
  function Plus(n: Option<JsNumber>, m: Option<JsNumber>): Option<JsNumber>
  {
    match (n, m)
    case (Some(Finite(a)), Some(Finite(b))) => Some(Finite(a + b))
    case (Some(Infinite(_)), Some(Finite(_))) => n
    case (Some(Finite(_)), Some(Infinite(_))) => m
    case (Some(Infinite(x)), Some(Infinite(y))) => if x == y then n else None
    case _ => None
  }

  /** A string of decimal digits. */
  type Numeral = s: string | AllDigits(s)

  /** The value of the digits after a decimal point: 0.d1d2... = (d1 + 0.d2...) / 10. */
  function FractionValue(fp: Numeral): (r: real)
    ensures 0.0 <= r < 1.0
  {
    if fp == [] then 0.0 else (DigitValue(fp[0]) as real + FractionValue(fp[1..])) / 10.0
  }

  /** Ten to the power `n`. */
  function Pow10(n: nat): (r: real)
    ensures r >= 1.0
  {
    if n == 0 then 1.0 else 10.0 * Pow10(n - 1)
  }

  /** `m` times ten to the power `e`, or divided by it when the exponent is negative. */
  function Scale10(m: real, negative: bool, e: nat): real
  {
    if negative then m / Pow10(e) else m * Pow10(e)
  }

  /** The exponent of a decimal literal read so far: none, `e`, `e` and a sign, or its digits. */
  datatype Exponent = NoExponent | Mark | MarkSigned(negative: bool) | ExponentDigits(negative: bool, value: nat)

  /**
   * A decimal literal read so far: its sign, whether any digit was seen, the value of the
   * digits before the point, whether the point was seen, the digits after it, and its exponent.
   */
  datatype Literal = Literal(negative: bool, seen: bool, whole: nat, dot: bool, fraction: Numeral, exponent: Exponent)

  /** A literal `Number` accepts: a digit, and an exponent, once begun, with digits. */
  predicate Complete(l: Literal)
  {
    l.seen && (l.exponent.NoExponent? || l.exponent.ExponentDigits?)
  }

  /** The literal's value; an exponent without digits is not part of it. */
  function LiteralValue(l: Literal): real
  {
    var v := l.whole as real + FractionValue(l.fraction);
    var m := if l.negative then -v else v;
    match l.exponent
    case ExponentDigits(negative, e) => Scale10(m, negative, e)
    case _ => m
  }

  /** A sign read, and nothing after it yet. */
  predicate BareSign(l: Literal)
  {
    !l.seen && !l.dot
  }

  /** The literal extended by one more character; `None` ends it. */
  function ExtendLiteral(l: Literal, c: char): Option<Literal>
  {
    match l.exponent
    case NoExponent =>
      if IsDigit(c) then
        if l.dot then Some(l.(seen := true, fraction := l.fraction + [c]))
        else Some(l.(seen := true, whole := 10 * l.whole + DigitValue(c)))
      else if c == '.' && !l.dot then Some(l.(dot := true))
      else if (c == 'e' || c == 'E') && l.seen then Some(l.(exponent := Mark))
      else None
    case Mark =>
      if c == '+' || c == '-' then Some(l.(exponent := MarkSigned(c == '-')))
      else if IsDigit(c) then Some(l.(exponent := ExponentDigits(false, DigitValue(c))))
      else None
    case MarkSigned(negative) =>
      if IsDigit(c) then Some(l.(exponent := ExponentDigits(negative, DigitValue(c)))) else None
    case ExponentDigits(negative, e) =>
      if IsDigit(c) then Some(l.(exponent := ExponentDigits(negative, 10 * e + DigitValue(c)))) else None
  }

  /** The word both readers accept for an infinity, after an optional sign. */
  const InfinityWord: string := "Infinity"

  /**
   * What a reader is in the middle of: a decimal literal; an unsigned `0` that may begin a
   * `0x`, `0o` or `0b` literal; such a literal in `base`, with whether a digit was seen and
   * the value so far; or the first `matched` characters of `Infinity`.
   */
  datatype Token =
    | Decimal(lit: Literal)
    | LoneZero
    | Based(base: nat, seen: bool, value: nat)
    | Word(negative: bool, matched: nat)

  /** The literal `0`. */
  const ZeroLiteral: Literal := Literal(false, true, 0, false, "", NoExponent)

  /**
   * The token a character starts: a sign, a digit, a decimal point or the `I` of `Infinity`.
   * Only with `radix` (`Number` has it, `parseFloat` does not) does `0` start a `LoneZero`.
   */
  function StartToken(c: char, radix: bool): Option<Token>
  {
    if c == '+' || c == '-' then Some(Decimal(Literal(c == '-', false, 0, false, "", NoExponent)))
    else if c == '0' && radix then Some(LoneZero)
    else if IsDigit(c) then Some(Decimal(Literal(false, true, DigitValue(c), false, "", NoExponent)))
    else if c == '.' then Some(Decimal(Literal(false, false, 0, true, "", NoExponent)))
    else if c == InfinityWord[0] then Some(Word(false, 1))
    else None
  }

  /** A digit of base 2, 8 or 16, with its value. */
  function BaseDigit(base: nat, c: char): Option<nat>
  {
    if base == 16 then (if IsHexDigit(c) then Some(HexDigitValue(c)) else None)
    else if IsDigit(c) && DigitValue(c) < base then Some(DigitValue(c))
    else None
  }

  /** The token extended by one more character; `None` ends it. */
  function ExtendToken(t: Token, c: char): Option<Token>
  {
    match t
    case Decimal(l) =>
      if BareSign(l) && c == InfinityWord[0] then Some(Word(l.negative, 1))
      else (match ExtendLiteral(l, c) case Some(l2) => Some(Decimal(l2)) case None => None)
    case LoneZero =>
      if c == 'x' || c == 'X' then Some(Based(16, false, 0))
      else if c == 'o' || c == 'O' then Some(Based(8, false, 0))
      else if c == 'b' || c == 'B' then Some(Based(2, false, 0))
      else (match ExtendLiteral(ZeroLiteral, c) case Some(l2) => Some(Decimal(l2)) case None => None)
    case Based(base, _, v) =>
      (match BaseDigit(base, c) case Some(d) => Some(Based(base, true, base * v + d)) case None => None)
    case Word(negative, m) =>
      if m < |InfinityWord| && c == InfinityWord[m] then Some(Word(negative, m + 1)) else None
  }

  /** The token extended by each character of `s` in turn; `None` once one does not fit. */
  function ExtendAll(t: Token, s: string): Option<Token>
    decreases |s|
  {
    if s == [] then Some(t)
    else match ExtendAll(t, s[..|s| - 1])
      case Some(t1) => ExtendToken(t1, s[|s| - 1])
      case None => None
  }

  /** The value of a whole token for `Number`; `None` (`NaN`) when it is unfinished. */
  function TokenNumber(t: Token): Option<JsNumber>
  {
    match t
    case Decimal(l) => if Complete(l) then Some(Finite(LiteralValue(l))) else None
    case LoneZero => Some(Finite(0.0))
    case Based(_, seen, v) => if seen then Some(Finite(v as real)) else None
    case Word(negative, m) => if m == |InfinityWord| then Some(Infinite(negative)) else None
  }

  /** The value `parseFloat` gives the longest number the token begins with. */
  function TokenPrefix(t: Token): Option<JsNumber>
  {
    match t
    case Decimal(l) => if l.seen then Some(Finite(LiteralValue(l))) else None
    case LoneZero => Some(Finite(0.0))
    case Based(_, _, _) => Some(Finite(0.0))
    case Word(negative, m) => if m == |InfinityWord| then Some(Infinite(negative)) else None
  }

  /** `Number` reading a string: white space, then one token, then white space only. */
  datatype NumberScan = Blank | InToken(tok: Token) | After(value: JsNumber) | Rejected

  function NumberStep(st: NumberScan, c: char): NumberScan
  {
    match st
    case Blank =>
      if IsJsSpace(c) then Blank
      else (match StartToken(c, true) case Some(t) => InToken(t) case None => Rejected)
    case InToken(t) =>
      (match ExtendToken(t, c)
       case Some(t2) => InToken(t2)
       case None =>
         match TokenNumber(t)
         case Some(v) => if IsJsSpace(c) then After(v) else Rejected
         case None => Rejected)
    case After(v) => if IsJsSpace(c) then After(v) else Rejected
    case Rejected => Rejected
  }

  function NumberState(s: string): NumberScan
  {
    if s == [] then Blank else NumberStep(NumberState(s[..|s| - 1]), s[|s| - 1])
  }

  /**
   * `Number(s)` on strings: surrounding white space is ignored and a blank string is 0; what
   * is left must be one whole literal: decimal with an optional sign, fraction and exponent,
   * unsigned `0x`, `0o` or `0b`, or a signed `Infinity`. Anything else is `NaN` (`None`).
   */
  function NumberOf(s: string): Option<JsNumber>
  {
    match NumberState(s)
    case Blank => Some(Finite(0.0))
    case InToken(t) => TokenNumber(t)
    case After(v) => Some(v)
    case Rejected => None
  }

  /** `parseFloat` reading a string: white space, then the longest number at the front. */
  datatype FloatScan = FloatBlank | FloatToken(tok: Token) | FloatDone(result: Option<JsNumber>)

  function FloatStep(st: FloatScan, c: char): FloatScan
  {
    match st
    case FloatBlank =>
      if IsJsSpace(c) then FloatBlank
      else (match StartToken(c, false) case Some(t) => FloatToken(t) case None => FloatDone(None))
    case FloatToken(t) =>
      (match ExtendToken(t, c)
       case Some(t2) => FloatToken(t2)
       case None => FloatDone(TokenPrefix(t)))
    case FloatDone(r) => FloatDone(r)
  }

  function FloatState(s: string): FloatScan
  {
    if s == [] then FloatBlank else FloatStep(FloatState(s[..|s| - 1]), s[|s| - 1])
  }

  /**
   * `parseFloat(s)`: leading white space is skipped and the longest prefix that is a decimal
   * literal (sign, fraction and exponent allowed) or a signed `Infinity` is read; `NaN`
   * (`None`) when there is none.
   */
  function ParseFloatOf(s: string): Option<JsNumber>
  {
    match FloatState(s)
    case FloatBlank => None
    case FloatToken(t) => TokenPrefix(t)
    case FloatDone(r) => r
  }

  predicate IsHexDigit(c: char) { IsDigit(c) || 'a' <= c <= 'f' || 'A' <= c <= 'F' }

  function HexDigitValue(c: char): nat
    requires IsHexDigit(c)
  {
    if IsDigit(c) then DigitValue(c)
    else if 'a' <= c <= 'f' then (c as int) - ('a' as int) + 10
    else (c as int) - ('A' as int) + 10
  }

  function Signed(negative: bool, v: nat): int
  {
    if negative then -(v as int) else v
  }

  /**
   * `parseInt` reading a string: white space, an optional sign, then either `0x`/`0X` and
   * hexadecimal digits or decimal digits, up to the first character that does not fit.
   */
  datatype IntScan =
    | IntBlank
    | IntSigned(negative: bool)
    | IntZero(negative: bool)
    | IntDecimal(negative: bool, value: nat)
    | IntHexStart(negative: bool)
    | IntHex(negative: bool, value: nat)
    | IntDone(result: Option<int>)

  function IntStep(st: IntScan, c: char): IntScan
  {
    match st
    case IntBlank =>
      if IsJsSpace(c) then IntBlank
      else if c == '+' || c == '-' then IntSigned(c == '-')
      else if c == '0' then IntZero(false)
      else if IsDigit(c) then IntDecimal(false, DigitValue(c))
      else IntDone(None)
    case IntSigned(neg) =>
      if c == '0' then IntZero(neg)
      else if IsDigit(c) then IntDecimal(neg, DigitValue(c))
      else IntDone(None)
    case IntZero(neg) =>
      if c == 'x' || c == 'X' then IntHexStart(neg)
      else if IsDigit(c) then IntDecimal(neg, DigitValue(c))
      else IntDone(Some(0))
    case IntDecimal(neg, v) =>
      if IsDigit(c) then IntDecimal(neg, 10 * v + DigitValue(c)) else IntDone(Some(Signed(neg, v)))
    case IntHexStart(neg) =>
      if IsHexDigit(c) then IntHex(neg, HexDigitValue(c)) else IntDone(None)
    case IntHex(neg, v) =>
      if IsHexDigit(c) then IntHex(neg, 16 * v + HexDigitValue(c)) else IntDone(Some(Signed(neg, v)))
    case IntDone(r) => IntDone(r)
  }

  function IntState(s: string): IntScan
  {
    if s == [] then IntBlank else IntStep(IntState(s[..|s| - 1]), s[|s| - 1])
  }

  /** `parseInt(s)` with no radix; `NaN` (`None`) when no digit is read. */
  function ParseIntOf(s: string): Option<int>
  {
    match IntState(s)
    case IntBlank => None
    case IntSigned(_) => None
    case IntZero(_) => Some(0)
    case IntDecimal(neg, v) => Some(Signed(neg, v))
    case IntHexStart(_) => None
    case IntHex(neg, v) => Some(Signed(neg, v))
    case IntDone(r) => r
  }

  /** The token a non-empty numeral leaves `Number` in: a lone `0`, or a decimal literal. */
  function NumeralToken(d: string): Token
    requires AllDigits(d)
  {
    if d == "0" then LoneZero else Decimal(Literal(false, true, DigitsValue(d), false, "", NoExponent))
  }

  /** Reading a numeral with `Number` accumulates exactly its value. */
  lemma {:induction false} NumeralNumberState(d: string)
    requires AllDigits(d)
    ensures NumberState(d) == if d == [] then Blank else InToken(NumeralToken(d))
    decreases |d|
  {
    if d != [] {
      var p := d[..|d| - 1];
      var c := d[|d| - 1];
      assert AllDigits(p);
      NumeralNumberState(p);
      assert DigitsValue(d) == 10 * DigitsValue(p) + DigitValue(c);
      if p == [] {
        assert d == [c];
      } else if p == "0" {
        assert DigitsValue(p) == 0;
        assert |d| == 2;
      }
    }
  }

  /** `Number` reads a plain numeral (or the empty string) back as its value. */
  lemma NumberOfNumeral(d: string)
    requires AllDigits(d)
    ensures NumberOf(d) == Some(Finite(DigitsValue(d) as real))
  {
    NumeralNumberState(d);
  }

  /** Reading a non-empty numeral with `parseFloat` accumulates exactly its value. */
  lemma {:induction false} NumeralFloatState(d: string)
    requires d != [] && AllDigits(d)
    ensures FloatState(d) == FloatToken(Decimal(Literal(false, true, DigitsValue(d), false, "", NoExponent)))
    decreases |d|
  {
    var p := d[..|d| - 1];
    if p != [] {
      assert AllDigits(p);
      NumeralFloatState(p);
    }
  }

  /** Extending a token character by character is what `Number` does in the middle of one. */
  lemma {:induction false} NumberExtendAll(pre: string, t: Token, s: string)
    requires NumberState(pre) == InToken(t) && ExtendAll(t, s).Some?
    ensures NumberState(pre + s) == InToken(ExtendAll(t, s).value)
    decreases |s|
  {
    if s != [] {
      var p := s[..|s| - 1];
      assert (pre + s)[..|pre + s| - 1] == pre + p;
      assert (pre + s)[|pre + s| - 1] == s[|s| - 1];
      assert ExtendAll(t, p).Some?;
      NumberExtendAll(pre, t, p);
      assert NumberState(pre + s) == NumberStep(NumberState(pre + p), s[|s| - 1]);
    } else {
      assert pre + s == pre;
    }
  }

  /** And what `parseFloat` does. */
  lemma {:induction false} FloatExtendAll(pre: string, t: Token, s: string)
    requires FloatState(pre) == FloatToken(t) && ExtendAll(t, s).Some?
    ensures FloatState(pre + s) == FloatToken(ExtendAll(t, s).value)
    decreases |s|
  {
    if s != [] {
      var p := s[..|s| - 1];
      assert (pre + s)[..|pre + s| - 1] == pre + p;
      assert (pre + s)[|pre + s| - 1] == s[|s| - 1];
      assert ExtendAll(t, p).Some?;
      FloatExtendAll(pre, t, p);
      assert FloatState(pre + s) == FloatStep(FloatState(pre + p), s[|s| - 1]);
    } else {
      assert pre + s == pre;
    }
  }

  /** After `e` (and its sign, if any), exponent digits accumulate their value. */
  lemma {:induction false} ExponentDigitsExtend(l: Literal, negative: bool, k: string)
    requires (l.exponent == Mark && !negative) || l.exponent == MarkSigned(negative)
    requires k != [] && AllDigits(k)
    ensures ExtendAll(Decimal(l), k) == Some(Decimal(l.(exponent := ExponentDigits(negative, DigitsValue(k)))))
    decreases |k|
  {
    var p := k[..|k| - 1];
    if p != [] {
      assert AllDigits(p);
      ExponentDigitsExtend(l, negative, p);
    }
  }

  /** The exponent signs: none, `+` or `-`. */
  predicate IsExponentSign(sign: string)
  {
    sign == "" || sign == "+" || sign == "-"
  }

  /** The literal both readers hold after digits, `e` and an optional exponent sign. */
  function MarkedLiteral(d: string, sign: string): Literal
    requires AllDigits(d)
  {
    Literal(false, true, DigitsValue(d), false, "", if sign == "" then Mark else MarkSigned(sign == "-"))
  }

  lemma ExponentMarkExtend(d: string, sign: string)
    requires d != [] && AllDigits(d) && IsExponentSign(sign)
    ensures ExtendAll(NumeralToken(d), "e" + sign) == Some(Decimal(MarkedLiteral(d, sign)))
    ensures ExtendAll(Decimal(Literal(false, true, DigitsValue(d), false, "", NoExponent)), "e" + sign)
         == Some(Decimal(MarkedLiteral(d, sign)))
  {
    var m := MarkedLiteral(d, "");
    assert ExtendAll(NumeralToken(d), "e") == Some(Decimal(m)) by {
      assert "e"[..0] == [] && "e"[0] == 'e';
      if d == "0" {
        assert DigitsValue(d) == 0;
      }
    }
    assert ExtendAll(Decimal(Literal(false, true, DigitsValue(d), false, "", NoExponent)), "e") == Some(Decimal(m)) by {
      assert "e"[..0] == [] && "e"[0] == 'e';
    }
    if sign != "" {
      assert ("e" + sign)[..1] == "e";
    }
  }

  /** Both readers reach that literal after digits, `e` and the sign. */
  lemma ExponentMarkState(d: string, sign: string)
    requires d != [] && AllDigits(d) && IsExponentSign(sign)
    ensures NumberState(d + ("e" + sign)) == InToken(Decimal(MarkedLiteral(d, sign)))
    ensures FloatState(d + ("e" + sign)) == FloatToken(Decimal(MarkedLiteral(d, sign)))
  {
    ExponentMarkExtend(d, sign);
    NumeralNumberState(d);
    NumberExtendAll(d, NumeralToken(d), "e" + sign);
    NumeralFloatState(d);
    FloatExtendAll(d, Decimal(Literal(false, true, DigitsValue(d), false, "", NoExponent)), "e" + sign);
  }

  /** The literal with its exponent digits `k` read. */
  function ExponentLiteralOf(d: string, sign: string, k: string): Literal
    requires AllDigits(d) && AllDigits(k)
  {
    MarkedLiteral(d, sign).(exponent := ExponentDigits(sign == "-", DigitsValue(k)))
  }

  /** `Number` holds that literal after digits, `e`, the sign and the exponent digits `k`. */
  lemma ExponentNumberState(d: string, sign: string, k: string)
    requires d != [] && AllDigits(d) && IsExponentSign(sign) && k != [] && AllDigits(k)
    ensures NumberState(d + ("e" + sign) + k) == InToken(Decimal(ExponentLiteralOf(d, sign, k)))
  {
    ExponentMarkState(d, sign);
    ExponentDigitsExtend(MarkedLiteral(d, sign), sign == "-", k);
    NumberExtendAll(d + ("e" + sign), Decimal(MarkedLiteral(d, sign)), k);
  }

  /** And so does `parseFloat`. */
  lemma ExponentFloatState(d: string, sign: string, k: string)
    requires d != [] && AllDigits(d) && IsExponentSign(sign) && k != [] && AllDigits(k)
    ensures FloatState(d + ("e" + sign) + k) == FloatToken(Decimal(ExponentLiteralOf(d, sign, k)))
  {
    ExponentMarkState(d, sign);
    ExponentDigitsExtend(MarkedLiteral(d, sign), sign == "-", k);
    FloatExtendAll(d + ("e" + sign), Decimal(MarkedLiteral(d, sign)), k);
  }

  /** The literal's value is the mantissa scaled by the exponent. */
  lemma ExponentValue(d: string, sign: string, k: string)
    requires AllDigits(d) && AllDigits(k)
    ensures Complete(ExponentLiteralOf(d, sign, k))
    ensures LiteralValue(ExponentLiteralOf(d, sign, k)) == Scale10(DigitsValue(d) as real, sign == "-", DigitsValue(k))
  {
    assert FractionValue("") == 0.0;
  }

  /**
   * Digits, `e`, an optional sign and digits: `Number` and `parseFloat` both read the mantissa
   * scaled by the power of ten.
   */
  lemma ExponentLiteral(d: string, sign: string, k: string)
    requires d != [] && AllDigits(d) && IsExponentSign(sign) && k != [] && AllDigits(k)
    ensures NumberOf(d + "e" + sign + k) == Some(Finite(Scale10(DigitsValue(d) as real, sign == "-", DigitsValue(k))))
    ensures ParseFloatOf(d + "e" + sign + k) == Some(Finite(Scale10(DigitsValue(d) as real, sign == "-", DigitsValue(k))))
  {
    var x := d + "e" + sign + k;
    assert x == d + ("e" + sign) + k;
    ExponentNumberState(d, sign, k);
    ExponentFloatState(d, sign, k);
    ExponentValue(d, sign, k);
  }

  /** Both readers read each prefix of `Infinity` as that much of the word. */
  lemma {:induction false} InfinityPrefixState(k: nat)
    requires 1 <= k <= |InfinityWord|
    ensures NumberState(InfinityWord[..k]) == InToken(Word(false, k))
    ensures FloatState(InfinityWord[..k]) == FloatToken(Word(false, k))
    decreases k
  {
    if k > 1 {
      assert InfinityWord[..k][..k - 1] == InfinityWord[..k - 1];
      InfinityPrefixState(k - 1);
    }
  }

  /** `Number("Infinity")` and `parseFloat("Infinity")` are infinite, not `NaN`. */
  lemma InfinityIsNumber()
    ensures NumberOf(InfinityWord) == Some(Infinite(false))
    ensures ParseFloatOf(InfinityWord) == Some(Infinite(false))
  {
    InfinityPrefixState(|InfinityWord|);
    assert InfinityWord[..|InfinityWord|] == InfinityWord;
  }

  /** `Number` reads `0x` followed by hexadecimal digits in base 16. */
  lemma HexIsNumber()
    ensures NumberOf("0x10") == Some(Finite(16.0))
  {
    assert NumberState("0") == InToken(LoneZero);
    assert "0x"[..1] == "0";
    assert NumberState("0x") == InToken(Based(16, false, 0));
    assert "0x1"[..2] == "0x";
    assert NumberState("0x1") == InToken(Based(16, true, 1));
    assert "0x10"[..3] == "0x1";
    assert NumberState("0x10") == InToken(Based(16, true, 16));
  }

  /** `Number` reads `0b` followed by binary digits in base 2. */
  lemma BinaryIsNumber()
    ensures NumberOf("0b101") == Some(Finite(5.0))
  {
    assert NumberState("0") == InToken(LoneZero);
    assert "0b"[..1] == "0";
    assert NumberState("0b") == InToken(Based(2, false, 0));
    assert "0b1"[..2] == "0b";
    assert NumberState("0b1") == InToken(Based(2, true, 1));
    assert "0b10"[..3] == "0b1";
    assert NumberState("0b10") == InToken(Based(2, true, 2));
    assert "0b101"[..4] == "0b10";
    assert NumberState("0b101") == InToken(Based(2, true, 5));
  }

  /** `Number` reads `0o` followed by octal digits in base 8. */
  lemma OctalIsNumber()
    ensures NumberOf("0o17") == Some(Finite(15.0))
  {
    assert NumberState("0") == InToken(LoneZero);
    assert "0o"[..1] == "0";
    assert NumberState("0o") == InToken(Based(8, false, 0));
    assert "0o1"[..2] == "0o";
    assert NumberState("0o1") == InToken(Based(8, true, 1));
    assert "0o17"[..3] == "0o1";
    assert NumberState("0o17") == InToken(Based(8, true, 15));
  }

  /** A numeric separator is no part of a string numeral: `Number("1_000")` is `NaN`. */
  lemma SeparatorIsNaN()
    ensures NumberOf("1_000") == None
  {
    assert NumberState("1") == InToken(Decimal(Literal(false, true, 1, false, "", NoExponent)));
    assert "1_"[..1] == "1";
    assert NumberState("1_") == Rejected;
    RejectedStays("1_", "000");
    assert "1_" + "000" == "1_000";
  }

  /** Once `Number` has rejected a prefix, no continuation reads as a number. */
  lemma {:induction false} RejectedStays(p: string, s: string)
    requires NumberState(p) == Rejected
    ensures NumberState(p + s) == Rejected
    decreases |s|
  {
    if s != [] {
      RejectedStays(p, s[..|s| - 1]);
      assert (p + s)[..|p + s| - 1] == p + s[..|s| - 1];
    } else {
      assert p + s == p;
    }
  }

  /** Reading a non-empty numeral with `parseInt` accumulates exactly its value. */
  lemma {:induction false} NumeralIntState(d: string)
    requires d != [] && AllDigits(d)
    ensures IntState(d) == IntDecimal(false, DigitsValue(d)) || (IntState(d) == IntZero(false) && DigitsValue(d) == 0)
    decreases |d|
  {
    var p := d[..|d| - 1];
    if p != [] {
      assert AllDigits(p);
      NumeralIntState(p);
    }
  }

  /** `parseInt` reads a plain numeral back as its value. */
  lemma ParseIntNumeral(d: string)
    requires d != [] && AllDigits(d)
    ensures ParseIntOf(d) == Some(DigitsValue(d))
  {
    NumeralIntState(d);
  }

  /** Once `parseInt` has stopped, later characters change nothing. */
  lemma {:induction false} IntDoneStays(s: string, t: string)
    requires IntState(s).IntDone?
    ensures IntState(s + t) == IntState(s)
    decreases |t|
  {
    if t != [] {
      assert (s + t)[..|s + t| - 1] == s + t[..|t| - 1];
      IntDoneStays(s, t[..|t| - 1]);
      assert IntState(s + t) == IntStep(IntState(s + t[..|t| - 1]), (s + t)[|s + t| - 1]);
    } else {
      assert s + t == s;
    }
  }

  /**
   * `parseInt` stops at the first character after a numeral that is not a digit (an `x`
   * after a lone `0` would start a hexadecimal literal instead), whatever follows.
   */
  lemma ParseIntStopsAfterNumeral(d: string, c: char, rest: string)
    requires d != [] && AllDigits(d) && !IsDigit(c) && c != 'x' && c != 'X'
    ensures ParseIntOf(d + [c] + rest) == Some(DigitsValue(d))
  {
    NumeralIntState(d);
    assert (d + [c])[..|d|] == d;
    IntDoneStays(d + [c], rest);
  }

  /** Text that starts with neither white space, a sign nor a digit is `NaN` for `parseInt`. */
  lemma ParseIntWithoutDigits(c: char, rest: string)
    requires !IsJsSpace(c) && c != '+' && c != '-' && !IsDigit(c)
    ensures ParseIntOf([c] + rest) == None
  {
    assert IntState([c]) == IntDone(None);
    IntDoneStays([c], rest);
  }

  /** `parseInt` reads `0x` followed by hexadecimal digits in base 16. */
  lemma ParseIntHex()
    ensures ParseIntOf("0x10") == Some(16)
  {
    assert "0x"[..1] == "0";
    assert "0x1"[..2] == "0x";
    assert "0x10"[..3] == "0x1";
    assert IntState("0x10") == IntHex(false, 16);
  }

  /** Text made of digits and colons only. */
  predicate IsClockText(s: string) { forall i :: 0 <= i < |s| ==> IsDigit(s[i]) || s[i] == ':' }

  /** `Number` rejects clock text at its first colon and stays rejected. */
  lemma {:induction false} ClockNumberState(s: string)
    requires IsClockText(s)
    ensures ':' in s ==> NumberState(s) == Rejected
    ensures ':' !in s ==> NumberState(s) == Blank || (NumberState(s).InToken? && !NumberState(s).tok.Word? && !NumberState(s).tok.Based?)
    decreases |s|
  {
    if s != [] {
      var p := s[..|s| - 1];
      assert s == p + [s[|s| - 1]];
      assert IsClockText(p);
      ClockNumberState(p);
    }
  }

  /** Clock text with a colon is not a number. */
  lemma ClockTextIsNaN(s: string)
    requires IsClockText(s) && ':' in s
    ensures NumberOf(s) == None
  {
    ClockNumberState(s);
  }
}
