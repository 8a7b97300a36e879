/**
 * Strings as the program sees them, modelled as sequences of Unicode code points,
 * together with the few ECMAScript string and number primitives the core relies on:
 * `Number.prototype.toString`, `parseInt` and `String.prototype.substr`.
 */
module Text {
  import opened Results

  /** A code point as `String.fromCodePoint` accepts it (lone surrogates included). */
  type CodePoint = c: int | 0 <= c <= 0x10FFFF
  type Text = seq<CodePoint>

  const MAX_CODE_POINT: int := 0x10FFFF

  const NUMBER_SIGN: CodePoint := 0x23     // '#'
  const AMPERSAND: CodePoint := 0x26       // '&'
  const PLUS_SIGN: CodePoint := 0x2B       // '+'
  const HYPHEN_MINUS: CodePoint := 0x2D    // '-'
  const DIGIT_ZERO: CodePoint := 0x30      // '0'
  const SEMICOLON: CodePoint := 0x3B       // ';'
  const CAPITAL_X: CodePoint := 0x58       // 'X'
  const SMALL_X: CodePoint := 0x78         // 'x'

  /** Line terminators: what `.` in a regular expression does not match. */
  predicate IsLineTerminator(c: CodePoint) {
    c == 0x0A || c == 0x0D || c == 0x2028 || c == 0x2029
  }

  /** The characters `parseInt` skips before the number (white space or a line terminator). */
  predicate IsStrWhiteSpace(c: CodePoint) {
    c == 0x09 || c == 0x0B || c == 0x0C || c == 0x20 || c == 0xA0 || c == 0x1680
    || (0x2000 <= c <= 0x200A) || c == 0x202F || c == 0x205F || c == 0x3000 || c == 0xFEFF
    || IsLineTerminator(c)
  }

  /** The value of `c` as a digit of a radix up to 36 ('0'-'9', then 'a'-'z' or 'A'-'Z'); 36 when it is none. */
  function DigitValue(c: CodePoint): (d: nat)
    ensures d <= 36
    ensures d < 10 <==> 0x30 <= c <= 0x39
  {
    if 0x30 <= c <= 0x39 then c - 0x30
    else if 0x61 <= c <= 0x7A then c - 0x61 + 10
    else if 0x41 <= c <= 0x5A then c - 0x41 + 10
    else 36
  }

  /** The lower-case digit for `d`, as `Number.prototype.toString` writes it. */
  function DigitChar(d: nat): (c: CodePoint)
    requires d < 36
    ensures DigitValue(c) == d
    ensures c == DIGIT_ZERO <==> d == 0
  {
    if d < 10 then 0x30 + d else 0x61 + d - 10
  }

  predicate AllDigits(t: Text, radix: nat) {
    forall k :: 0 <= k < |t| ==> DigitValue(t[k]) < radix
  }

  /** The number a string of digits denotes, read most significant digit first. */
  function ValueOf(t: Text, radix: nat): nat
  {
    if t == [] then 0 else ValueOf(t[..|t| - 1], radix) * radix + DigitValue(t[|t| - 1])
  }

  /**
   * `n.toString(radix)` for a non-negative integer: its digits without leading zeros
   * (the single digit "0" for zero); `'' + n` is the case radix 10.
   */
  function Digits(n: nat, radix: nat): Text
    requires 2 <= radix <= 36
    decreases n
  {
    if n < radix then [DigitChar(n)] else Digits(n / radix, radix) + [DigitChar(n % radix)]
  }

  /** `n.toString(radix)` is a well-formed numeral that denotes `n`, with a leading zero only for zero itself. */
  lemma DigitsValue(n: nat, radix: nat)
    requires 2 <= radix <= 36
    ensures |Digits(n, radix)| >= 1 && AllDigits(Digits(n, radix), radix)
    ensures ValueOf(Digits(n, radix), radix) == n
    ensures Digits(n, radix)[0] == DIGIT_ZERO ==> n == 0
  {
    DigitsShape(n, radix);
    DigitsDenote(n, radix);
  }

  lemma {:induction false} DigitsShape(n: nat, radix: nat)
    requires 2 <= radix <= 36
    ensures |Digits(n, radix)| >= 1 && AllDigits(Digits(n, radix), radix)
    ensures Digits(n, radix)[0] == DIGIT_ZERO ==> n == 0
    decreases n
  {
    if n >= radix {
      DigitsShape(n / radix, radix);
      var high := Digits(n / radix, radix);
      assert Digits(n, radix) == high + [DigitChar(n % radix)];
      assert n / radix >= 1;
    }
  }

  lemma {:induction false} DigitsDenote(n: nat, radix: nat)
    requires 2 <= radix <= 36
    ensures ValueOf(Digits(n, radix), radix) == n
    decreases n
  {
    if n < radix {
      assert DigitValue(DigitChar(n)) == n;
    } else {
      DigitsDenote(n / radix, radix);
      var high := Digits(n / radix, radix);
      var last := DigitChar(n % radix);
      assert Digits(n, radix) == high + [last];
      ValueOfAppend(high, last, radix);
      DivMod(n, radix);
    }
  }

  /** Appending a digit multiplies the value by the radix and adds that digit. */
  lemma ValueOfAppend(t: Text, c: CodePoint, radix: nat)
    ensures ValueOf(t + [c], radix) == ValueOf(t, radix) * radix + DigitValue(c)
  {
    assert (t + [c])[..|t + [c]| - 1] == t;
  }

  lemma DivMod(n: nat, radix: nat)
    requires radix >= 2
    ensures (n / radix) * radix + n % radix == n
  {
  }

  function Decimal(n: nat): Text { Digits(n, 10) }

  function Hex(n: nat): Text { Digits(n, 16) }

  /** `s` without its leading white space (the first step of `parseInt`). */
  function TrimStart(s: Text): Text {
    if s != [] && IsStrWhiteSpace(s[0]) then TrimStart(s[1..]) else s
  }

  /** What `TrimStart` keeps is a suffix of `s` that does not start with white space. */
  lemma {:induction false} TrimStartSuffix(s: Text)
    ensures |TrimStart(s)| <= |s| && TrimStart(s) == s[|s| - |TrimStart(s)|..]
    ensures TrimStart(s) != [] ==> !IsStrWhiteSpace(TrimStart(s)[0])
  {
    if s != [] && IsStrWhiteSpace(s[0]) {
      TrimStartSuffix(s[1..]);
    }
  }

  /** The length of the longest prefix of `s` made of digits of `radix`. */
  function DigitRun(s: Text, radix: nat): (n: nat)
    ensures n <= |s|
  {
    if s != [] && DigitValue(s[0]) < radix then 1 + DigitRun(s[1..], radix) else 0
  }

  /** The run `DigitRun` measures is all digits, and it cannot be extended. */
  lemma {:induction false} DigitRunMaximal(s: Text, radix: nat)
    ensures AllDigits(s[..DigitRun(s, radix)], radix)
    ensures DigitRun(s, radix) < |s| ==> DigitValue(s[DigitRun(s, radix)]) >= radix
  {
    if s != [] && DigitValue(s[0]) < radix {
      DigitRunMaximal(s[1..], radix);
      var n := DigitRun(s, radix);
      assert s[..n] == [s[0]] + s[1..][..n - 1];
    }
  }

  /**
   * ECMAScript `parseInt(s, radix)`: skip white space, read an optional sign, drop a
   * "0x"/"0X" prefix when the radix is 16, then read the longest run of digits.
   * None stands for NaN (no digit at all). A negative zero is the integer 0.
   */
  function ParseInt(s: Text, radix: nat): Option<int>
    requires 2 <= radix <= 36
  {
    var t := TrimStart(s);
    var negative := t != [] && t[0] == HYPHEN_MINUS;
    var u := if t != [] && (t[0] == HYPHEN_MINUS || t[0] == PLUS_SIGN) then t[1..] else t;
    var v := if radix == 16 && |u| >= 2 && u[0] == DIGIT_ZERO && (u[1] == SMALL_X || u[1] == CAPITAL_X)
             then u[2..] else u;
    var z := v[..DigitRun(v, radix)];
    var magnitude: int := ValueOf(z, radix);
    if z == [] then None
    else if negative then Some(-magnitude)
    else Some(magnitude)
  }

  /** `s.substr(start, length)` (Annex B of ECMAScript): clamps both arguments to `s`. */
  function Substr(s: Text, start: int, length: int): (r: Text)
    ensures |r| <= |s|
    ensures 0 <= start && 0 <= length && start + length <= |s| ==> r == s[start..start + length]
  {
    var from := if start < 0 then (if |s| + start < 0 then 0 else |s| + start)
                else if start > |s| then |s| else start;
    var count := if length < 0 then 0 else if length > |s| - from then |s| - from else length;
    s[from..from + count]
  }

  /** `s.substr(start)`: from `start` to the end. */
  function SubstrFrom(s: Text, start: int): (r: Text)
    ensures 0 <= start <= |s| ==> r == s[start..]
  {
    Substr(s, start, |s|)
  }

  /** `s.indexOf(c, from)`: the first position at or after `from` holding `c`, or -1. */
  function IndexOf(s: Text, c: CodePoint, from: nat): (r: int)
    ensures r == -1 || (from <= r < |s| && s[r] == c)
    ensures r == -1 ==> forall k :: from <= k < |s| ==> s[k] != c
    ensures r != -1 ==> forall k :: from <= k < r ==> s[k] != c
    decreases |s| - from
  {
    if from >= |s| then -1
    else if s[from] == c then from
    else IndexOf(s, c, from + 1)
  }

  /** Parsing back what `Digits` writes, followed by a character that is no digit, gives the number. */
  lemma {:induction false} ParseDigits(n: nat, radix: nat, stop: CodePoint)
    requires radix == 10 || radix == 16
    requires DigitValue(stop) >= radix && stop != SMALL_X && stop != CAPITAL_X
    ensures ParseInt(Digits(n, radix) + [stop], radix) == Some(n)
  {
    DigitsValue(n, radix);
    var d := Digits(n, radix);
    var s := d + [stop];
    assert !IsStrWhiteSpace(s[0]) by { assert DigitValue(s[0]) < radix; }
    assert TrimStart(s) == s;
    assert s[0] != HYPHEN_MINUS && s[0] != PLUS_SIGN by { assert DigitValue(s[0]) < radix; }
    if radix == 16 && |s| >= 2 && s[0] == DIGIT_ZERO {
      assert n == 0;
      assert s[1] == stop;
    }
    DigitRunOf(d, radix, stop);
    assert s[..|d|] == d;
  }

  lemma {:induction false} DigitRunOf(d: Text, radix: nat, stop: CodePoint)
    requires AllDigits(d, radix) && DigitValue(stop) >= radix
    ensures DigitRun(d + [stop], radix) == |d|
    decreases |d|
  {
    if d != [] {
      assert (d + [stop])[1..] == d[1..] + [stop];
      DigitRunOf(d[1..], radix, stop);
    }
  }
}
