/**
 * The HTML helpers of ebook.js that filters receive through their parameters:
 * decoding numeric character references (`decode_cr`, `decode_crs`) and
 * `unescape_html`, which also rewrites a fixed list of named references.
 * Numeric references follow the "&#NNN;" / "&#xHH;" forms of section 13.1.4
 * ("Character references") of the HTML Living Standard, as far as the code
 * goes: only lower-case 'x', and digits parsed by `parseInt`.
 */
module CharRefs {
  import opened Results
  import opened Text

  /** `String.fromCodePoint` throws a RangeError for NaN and for numbers outside 0..0x10FFFF. */
  datatype DecodeError = RangeError

  /** `String.fromCodePoint(n)` for the result of `parseInt` (None is NaN). */
  function FromCodePoint(n: Option<int>): (r: Result<CodePoint, DecodeError>)
    ensures r.Ok? <==> n.Some? && 0 <= n.value <= MAX_CODE_POINT
    ensures r.Ok? ==> r.value == n.value
  {
    if n.Some? && 0 <= n.value <= MAX_CODE_POINT then Ok(n.value) else Err(RangeError)
  }

  /**
   * `decode_cr(cr)`: `cr` is hexadecimal when its third character is 'x'; the digits are
   * `cr.substr(3 or 2, cr.length - 2)`, which runs to the end of `cr`, terminating ';'
   * included; `parseInt` stops at the first non-digit.
   */
  function DecodeCr(cr: Text): Result<CodePoint, DecodeError>
  {
    var isHex := |cr| > 2 && cr[2] == SMALL_X;
    var digits := Substr(cr, if isHex then 3 else 2, |cr| - 2);
    FromCodePoint(ParseInt(digits, if isHex then 16 else 10))
  }

  /** "&#" followed by `body`, the shape of every span `decode_crs` hands to `decode_cr`. */
  function Reference(body: Text): Text {
    [AMPERSAND, NUMBER_SIGN] + body
  }

  /** For a span of at least three characters, the digits `decode_cr` reads run from the 3rd or 4th character to the end. */
  lemma DecodeCrDigits(cr: Text)
    requires |cr| >= 3
    ensures cr[2] == SMALL_X ==> DecodeCr(cr) == FromCodePoint(ParseInt(cr[3..], 16))
    ensures cr[2] != SMALL_X ==> DecodeCr(cr) == FromCodePoint(ParseInt(cr[2..], 10))
  {
    assert Substr(cr, 2, |cr| - 2) == cr[2..];
    assert Substr(cr, 3, |cr| - 2) == cr[3..];
  }

  /** `decode_cr` inverts decimal encoding: "&#" + n + ";" is the single code point n. */
  lemma DecodeDecimal(n: CodePoint)
    ensures DecodeCr(Reference(Decimal(n) + [SEMICOLON])) == Ok(n)
  {
    var cr := Reference(Decimal(n) + [SEMICOLON]);
    assert cr[2..] == Decimal(n) + [SEMICOLON];
    DigitsValue(n, 10);
    assert cr[2] != SMALL_X by { assert DigitValue(cr[2]) < 10; }
    DecodeCrDigits(cr);
    ParseDigits(n, 10, SEMICOLON);
  }

  /** `decode_cr` inverts lower-case hexadecimal encoding: "&#x" + hex(n) + ";" is n. */
  lemma DecodeHex(n: CodePoint)
    ensures DecodeCr(Reference([SMALL_X] + Hex(n) + [SEMICOLON])) == Ok(n)
  {
    var cr := Reference([SMALL_X] + Hex(n) + [SEMICOLON]);
    assert cr[3..] == Hex(n) + [SEMICOLON];
    DecodeCrDigits(cr);
    ParseDigits(n, 16, SEMICOLON);
  }

  lemma ParseNothing(radix: nat)
    requires radix == 10 || radix == 16
    ensures ParseInt([SEMICOLON], radix) == None
  {
    assert TrimStart([SEMICOLON]) == [SEMICOLON];
  }

  /** Empty digits ("&#;", "&#x;") make `parseInt` return NaN, and `fromCodePoint` throws. */
  lemma DecodeEmptyDigitsFails()
    ensures DecodeCr(Reference([SEMICOLON])).Err?
    ensures DecodeCr(Reference([SMALL_X, SEMICOLON])).Err?
  {
    var dec := Reference([SEMICOLON]);
    assert dec[2..] == [SEMICOLON];
    DecodeCrDigits(dec);
    ParseNothing(10);
    var hex := Reference([SMALL_X, SEMICOLON]);
    assert hex[3..] == [SEMICOLON];
    DecodeCrDigits(hex);
    ParseNothing(16);
  }

  /** An upper-case 'X' is not recognised: the digits are read in base 10 from the 'X', which is NaN. */
  lemma DecodeUpperXFails(rest: Text)
    ensures DecodeCr(Reference([CAPITAL_X] + rest)).Err?
  {
    var cr := Reference([CAPITAL_X] + rest);
    assert cr[2..] == [CAPITAL_X] + rest;
    DecodeCrDigits(cr);
    ParseUpperX(rest);
  }

  lemma ParseUpperX(rest: Text)
    ensures ParseInt([CAPITAL_X] + rest, 10) == None
  {
    var digits := [CAPITAL_X] + rest;
    assert TrimStart(digits) == digits;
    assert DigitRun(digits, 10) == 0;
  }

  /** A span of three characters ("&#" and the ';') never decodes. */
  lemma ShortSpanFails(cr: Text)
    requires |cr| == 3 && cr[2] == SEMICOLON
    ensures DecodeCr(cr).Err?
  {
    assert cr[2..] == [SEMICOLON];
    DecodeCrDigits(cr);
    ParseNothing(10);
  }

  /** A match of /&#.*;/ at `p`: "&#", then a ';' reached without crossing a line terminator. */
  predicate RefAt(s: Text, p: nat) {
    p + 1 < |s| && s[p] == AMPERSAND && s[p + 1] == NUMBER_SIGN && SemicolonOnLine(s, p + 2)
  }

  /** Some ';' at or after `k` comes before any line terminator. */
  predicate SemicolonOnLine(s: Text, k: nat)
    decreases |s| - k
  {
    k < |s| && (s[k] == SEMICOLON || (!IsLineTerminator(s[k]) && SemicolonOnLine(s, k + 1)))
  }

  lemma {:induction false} SemicolonAhead(s: Text, k: nat)
    requires SemicolonOnLine(s, k)
    ensures IndexOf(s, SEMICOLON, k) != -1
    decreases |s| - k
  {
    if s[k] != SEMICOLON {
      SemicolonAhead(s, k + 1);
    }
  }

  /** `s.search(/&#.*;/)` started at `from`: the leftmost match, or None. */
  function SearchFrom(s: Text, from: nat): (r: Option<nat>)
    ensures r.Some? ==> from <= r.value && RefAt(s, r.value)
    decreases |s| - from
  {
    if from + 1 >= |s| then None
    else if RefAt(s, from) then Some(from)
    else SearchFrom(s, from + 1)
  }

  /** The match `SearchFrom` reports is the leftmost one, and None means there is no match at all. */
  lemma {:induction false} SearchLeftmost(s: Text, from: nat)
    ensures SearchFrom(s, from).Some? ==> forall q :: from <= q < SearchFrom(s, from).value ==> !RefAt(s, q)
    ensures SearchFrom(s, from).None? ==> forall q :: from <= q ==> !RefAt(s, q)
    decreases |s| - from
  {
    if from + 1 < |s| && !RefAt(s, from) {
      SearchLeftmost(s, from + 1);
    }
  }

  function Search(s: Text): Option<nat> {
    SearchFrom(s, 0)
  }

  /** The end of the span a match at `i` covers: `ls.indexOf(';', i)`. */
  function SpanEnd(s: Text, i: nat): (ni: nat)
    requires RefAt(s, i)
    ensures i + 2 <= ni < |s| && s[ni] == SEMICOLON
    ensures forall k :: i <= k < ni ==> s[k] != SEMICOLON
  {
    SemicolonAhead(s, i + 2);
    IndexOf(s, SEMICOLON, i)
  }

  /**
   * One iteration of the loop of `decode_crs` at the match `i`: the span from `i` to the
   * first ';' is replaced by the one code point it denotes, the text around it is kept.
   * A successful step replaces at least four characters, so the text shrinks.
   */
  function DecodeStep(s: Text, i: nat): (r: Result<Text, DecodeError>)
    requires RefAt(s, i)
    ensures r.Ok? ==> SpanEnd(s, i) >= i + 3 && |r.value| == |s| - (SpanEnd(s, i) - i)
    ensures r.Ok? ==> r.value[..i] == s[..i]
    ensures r.Ok? ==> DecodeCr(s[i..SpanEnd(s, i) + 1]) == Ok(r.value[i])
    ensures r.Ok? ==> r.value[i + 1..] == s[SpanEnd(s, i) + 1..]
  {
    var ni := SpanEnd(s, i);
    var cr := Substr(s, i, ni - i + 1);
    assert cr == s[i..ni + 1];
    var c := DecodeCr(cr);
    assert ni == i + 2 ==> c.Err? by {
      if ni == i + 2 {
        ShortSpanFails(cr);
      }
    }
    if c.Err? then Err(c.error)
    else
      var t := Substr(s, 0, i) + [c.value] + SubstrFrom(s, ni + 1);
      assert t[..i] == s[..i];
      assert t[i + 1..] == s[ni + 1..];
      Ok(t)
  }

  /**
   * What `decode_crs` computes: steps until no match is left, or the first reference
   * `String.fromCodePoint` rejects. Each search starts again at the beginning of the
   * rewritten text, so a decoded '&' can start a new reference.
   */
  function DecodeAll(s: Text): (r: Result<Text, DecodeError>)
    ensures r.Ok? ==> Search(r.value).None? && |r.value| <= |s|
    decreases |s|
  {
    match Search(s)
    case None => Ok(s)
    case Some(i) =>
      match DecodeStep(s, i)
      case Err(e) => Err(e)
      case Ok(t) => DecodeAll(t)
  }

  /** `decode_crs(s)`: the loop rewrites `ls` in place until `search` finds nothing. */
  method DecodeCrs(s: Text) returns (r: Result<Text, DecodeError>)
    ensures r == DecodeAll(s)
    ensures r.Ok? ==> Search(r.value).None?
  {
    var ls := s;
    var i := Search(ls);
    while i.Some?
      invariant i == Search(ls)
      invariant DecodeAll(ls) == DecodeAll(s)
      decreases |ls|
    {
      var ni := IndexOf(ls, SEMICOLON, i.value);
      var cp := DecodeCr(Substr(ls, i.value, ni - i.value + 1));
      LoopStep(ls, i.value, ni, cp);
      if cp.Err? {
        return Err(cp.error);
      }
      var next := Substr(ls, 0, i.value) + [cp.value] + SubstrFrom(ls, ni + 1);
      assert DecodeAll(next) == DecodeAll(s) && |next| < |ls|;
      ls := next;
      i := Search(ls);
    }
    DecodeAllNoReference(ls);
    return Ok(ls);
  }

  /** One pass of the loop of `decode_crs`, written as the program computes it, agrees with `DecodeAll`. */
  lemma LoopStep(ls: Text, i: nat, ni: int, cp: Result<CodePoint, DecodeError>)
    requires Search(ls) == Some(i) && ni == IndexOf(ls, SEMICOLON, i)
    requires cp == DecodeCr(Substr(ls, i, ni - i + 1))
    ensures cp.Err? ==> DecodeAll(ls) == Err(cp.error)
    ensures cp.Ok? ==> DecodeAll(ls) == DecodeAll(Substr(ls, 0, i) + [cp.value] + SubstrFrom(ls, ni + 1))
    ensures cp.Ok? ==> |Substr(ls, 0, i) + [cp.value] + SubstrFrom(ls, ni + 1)| < |ls|
  {
    StepAsLoop(ls, i, ni, cp);
    DecodeAllUnfold(ls, i);
  }

  /** `DecodeStep` is the loop body of `decode_crs`: `indexOf`, `substr`, `decode_cr`, and the splice. */
  lemma StepAsLoop(ls: Text, i: nat, ni: int, cp: Result<CodePoint, DecodeError>)
    requires RefAt(ls, i) && ni == IndexOf(ls, SEMICOLON, i)
    requires cp == DecodeCr(Substr(ls, i, ni - i + 1))
    ensures cp.Err? ==> DecodeStep(ls, i) == Err(cp.error)
    ensures cp.Ok? ==> DecodeStep(ls, i) == Ok(Substr(ls, 0, i) + [cp.value] + SubstrFrom(ls, ni + 1))
  {
    assert ni == SpanEnd(ls, i);
  }

  /** One step of `decode_crs` leaves what remains to be computed unchanged. */
  lemma DecodeAllUnfold(s: Text, i: nat)
    requires Search(s) == Some(i)
    ensures DecodeAll(s) == match DecodeStep(s, i) { case Err(e) => Err(e) case Ok(t) => DecodeAll(t) }
  {
  }

  /** A text without any "&#...;" reference is left as it is. */
  lemma DecodeAllNoReference(s: Text)
    requires Search(s).None?
    ensures DecodeAll(s) == Ok(s)
  {
  }

  /** A lone reference to a code point, decimal or lower-case hexadecimal, decodes to that code point. */
  lemma DecodeAllSingle(n: CodePoint, digits: Text)
    requires digits == Decimal(n) || digits == [SMALL_X] + Hex(n)
    ensures DecodeAll(Reference(digits + [SEMICOLON])) == Ok([n])
  {
    var s := Reference(digits + [SEMICOLON]);
    if digits == Decimal(n) {
      DecodeDecimal(n);
    } else {
      DecodeHex(n);
    }
    DigitsValue(n, 10);
    DigitsValue(n, 16);
    WholeSpan(digits);
    DecodeAllUnfold(s, 0);
    StepWholeSpan(s);
  }

  /** Digits without a ';' or a line break, closed by ';', form one match spanning the whole text. */
  lemma WholeSpan(digits: Text)
    requires forall k :: 0 <= k < |digits| ==> DigitValue(digits[k]) <= 33
    ensures Search(Reference(digits + [SEMICOLON])) == Some(0)
    ensures SpanEnd(Reference(digits + [SEMICOLON]), 0) == |digits| + 2
  {
    var s := Reference(digits + [SEMICOLON]);
    forall k | 2 <= k < |s| - 1
      ensures s[k] != SEMICOLON && !IsLineTerminator(s[k])
    {
      assert s[k] == digits[k - 2];
    }
    SemicolonFrom(s, 2);
  }

  lemma StepWholeSpan(s: Text)
    requires RefAt(s, 0) && SpanEnd(s, 0) == |s| - 1 && DecodeCr(s).Ok?
    ensures DecodeStep(s, 0) == Ok([DecodeCr(s).value])
  {
    var cr := Substr(s, 0, |s|);
    assert cr == s;
    var t := Substr(s, 0, 0) + [DecodeCr(s).value] + SubstrFrom(s, |s|);
    assert t == [DecodeCr(s).value];
  }

  lemma {:induction false} SemicolonFrom(s: Text, k: nat)
    requires k < |s| && s[|s| - 1] == SEMICOLON
    requires forall j :: k <= j < |s| - 1 ==> !IsLineTerminator(s[j])
    ensures SemicolonOnLine(s, k)
    decreases |s| - k
  {
    if s[k] != SEMICOLON {
      SemicolonFrom(s, k + 1);
    }
  }

  /** "&amp;", "&quot;", "&apos;", "&nbsp;", "&#39;" and "&amp;#39;", as code points. */
  const AMP_REF: Text := [AMPERSAND, 0x61, 0x6D, 0x70, SEMICOLON]
  const QUOT_REF: Text := [AMPERSAND, 0x71, 0x75, 0x6F, 0x74, SEMICOLON]
  const APOS_REF: Text := [AMPERSAND, 0x61, 0x70, 0x6F, 0x73, SEMICOLON]
  const NBSP_REF: Text := [AMPERSAND, 0x6E, 0x62, 0x73, 0x70, SEMICOLON]
  const APOS_NUMERIC_REF: Text := [AMPERSAND, NUMBER_SIGN, 0x33, 0x39, SEMICOLON]
  const DOUBLE_ESCAPED_APOS_REF: Text := AMP_REF + [NUMBER_SIGN, 0x33, 0x39, SEMICOLON]

  const QUOTATION_MARK: CodePoint := 0x22
  const APOSTROPHE: CodePoint := 0x27
  const SPACE: CodePoint := 0x20    // "&nbsp;" becomes a plain space, not U+00A0

  /** `s.replace(/pat/g, rep)` for a literal pattern: occurrences are found left to right, never overlapping, in one pass. */
  function ReplaceAll(s: Text, pat: Text, rep: Text): Text
    requires pat != []
    decreases |s|
  {
    if |s| < |pat| then s
    else if s[..|pat|] == pat then rep + ReplaceAll(s[|pat|..], pat, rep)
    else [s[0]] + ReplaceAll(s[1..], pat, rep)
  }

  /** A text in which the pattern's first character never appears is left as it is. */
  lemma {:induction false} ReplaceAllAbsent(s: Text, pat: Text, rep: Text)
    requires pat != [] && pat[0] !in s
    ensures ReplaceAll(s, pat, rep) == s
    decreases |s|
  {
    if |s| >= |pat| {
      assert s[..|pat|][0] == s[0];
      ReplaceAllAbsent(s[1..], pat, rep);
      assert s == [s[0]] + s[1..];
    }
  }

  /** A character in neither the text nor the replacement does not appear in the result. */
  lemma {:induction false} ReplaceAllKeepsOut(s: Text, pat: Text, rep: Text, c: CodePoint)
    requires pat != [] && c !in s && c !in rep
    ensures c !in ReplaceAll(s, pat, rep)
    decreases |s|
  {
    if |s| >= |pat| {
      if s[..|pat|] == pat {
        assert forall k :: |pat| <= k < |s| ==> s[k] == s[|pat|..][k - |pat|];
        ReplaceAllKeepsOut(s[|pat|..], pat, rep, c);
      } else {
        ReplaceAllKeepsOut(s[1..], pat, rep, c);
      }
    }
  }

  /**
   * `unescape_html(html)`: "&amp;" is undone first, then every numeric reference is
   * decoded, then the named references and the (double-escaped) apostrophe are replaced
   * and a last pass undoes "&amp;" again. The decoding step can throw.
   */
  function UnescapeHtml(html: Text): Result<Text, DecodeError>
  {
    match DecodeAll(ReplaceAll(html, AMP_REF, [AMPERSAND]))
    case Err(e) => Err(e)
    case Ok(t) =>
      var quot := ReplaceAll(t, QUOT_REF, [QUOTATION_MARK]);
      var apos := ReplaceAll(quot, APOS_REF, [APOSTROPHE]);
      var nbsp := ReplaceAll(apos, NBSP_REF, [SPACE]);
      var numeric := ReplaceAll(nbsp, APOS_NUMERIC_REF, [APOSTROPHE]);
      var doubled := ReplaceAll(numeric, DOUBLE_ESCAPED_APOS_REF, [APOSTROPHE]);
      Ok(ReplaceAll(doubled, AMP_REF, [AMPERSAND]))
  }

  /** Markup without any '&' comes back unchanged. */
  lemma UnescapeWithoutAmpersand(html: Text)
    requires AMPERSAND !in html
    ensures UnescapeHtml(html) == Ok(html)
  {
    ReplaceAllAbsent(html, AMP_REF, [AMPERSAND]);
    assert Search(html).None? by {
      forall q | 0 <= q ensures !RefAt(html, q) {
        if q < |html| { assert html[q] != AMPERSAND; }
      }
      NoMatchFrom(html, 0);
    }
    ReplaceAllAbsent(html, QUOT_REF, [QUOTATION_MARK]);
    ReplaceAllAbsent(html, APOS_REF, [APOSTROPHE]);
    ReplaceAllAbsent(html, NBSP_REF, [SPACE]);
    ReplaceAllAbsent(html, APOS_NUMERIC_REF, [APOSTROPHE]);
    ReplaceAllAbsent(html, DOUBLE_ESCAPED_APOS_REF, [APOSTROPHE]);
  }

  lemma {:induction false} NoMatchFrom(s: Text, from: nat)
    requires forall q :: from <= q ==> !RefAt(s, q)
    ensures SearchFrom(s, from).None?
    decreases |s| - from
  {
    if from + 1 < |s| {
      NoMatchFrom(s, from + 1);
    }
  }

  /** A numeric reference to any code point, escaped once or twice ("&amp;#..."), unescapes to that code point. */
  lemma UnescapeReference(n: CodePoint, digits: Text, doubled: bool)
    requires digits == Decimal(n) || digits == [SMALL_X] + Hex(n)
    ensures UnescapeHtml((if doubled then AMP_REF + [NUMBER_SIGN] else Reference([])) + digits + [SEMICOLON]) == Ok([n])
  {
    var html := (if doubled then AMP_REF + [NUMBER_SIGN] else Reference([])) + digits + [SEMICOLON];
    PrePassOnReference(n, digits, doubled);
    DecodeAllSingle(n, digits);
    UnescapeSingleCodePoint(html, n);
  }

  /** The first "&amp;" pass turns a once- or twice-escaped reference into the plain reference. */
  lemma PrePassOnReference(n: CodePoint, digits: Text, doubled: bool)
    requires digits == Decimal(n) || digits == [SMALL_X] + Hex(n)
    ensures ReplaceAll((if doubled then AMP_REF + [NUMBER_SIGN] else Reference([])) + digits + [SEMICOLON], AMP_REF, [AMPERSAND])
            == Reference(digits + [SEMICOLON])
  {
    ReferenceBodyHasNoAmpersand(n, digits);
    PrePassOnBody(digits, doubled);
  }

  lemma PrePassOnBody(digits: Text, doubled: bool)
    requires AMPERSAND !in [NUMBER_SIGN] + digits + [SEMICOLON]
    ensures ReplaceAll((if doubled then AMP_REF + [NUMBER_SIGN] else Reference([])) + digits + [SEMICOLON], AMP_REF, [AMPERSAND])
            == Reference(digits + [SEMICOLON])
  {
    var body := [NUMBER_SIGN] + digits + [SEMICOLON];
    if doubled {
      assert AMP_REF + [NUMBER_SIGN] + digits + [SEMICOLON] == AMP_REF + body;
      PrePassDoubled(body);
    } else {
      assert Reference([]) + digits + [SEMICOLON] == [AMPERSAND] + body;
      PrePassPlain(body);
    }
    assert Reference(digits + [SEMICOLON]) == [AMPERSAND] + body;
  }

  lemma ReferenceBodyHasNoAmpersand(n: CodePoint, digits: Text)
    requires digits == Decimal(n) || digits == [SMALL_X] + Hex(n)
    ensures AMPERSAND !in [NUMBER_SIGN] + digits + [SEMICOLON]
  {
    if digits == Decimal(n) {
      DigitsValue(n, 10);
      NumeralHasNoAmpersand(Decimal(n), 10);
    } else {
      DigitsValue(n, 16);
      NumeralHasNoAmpersand(Hex(n), 16);
    }
  }

  lemma NumeralHasNoAmpersand(t: Text, radix: nat)
    requires radix <= 36 && AllDigits(t, radix)
    ensures AMPERSAND !in t
  {
    forall k | 0 <= k < |t| ensures t[k] != AMPERSAND {
      assert DigitValue(t[k]) < radix;
    }
  }

  lemma PrePassDoubled(body: Text)
    requires AMPERSAND !in body
    ensures ReplaceAll(AMP_REF + body, AMP_REF, [AMPERSAND]) == [AMPERSAND] + body
  {
    var html := AMP_REF + body;
    assert html[..|AMP_REF|] == AMP_REF;
    assert html[|AMP_REF|..] == body;
    ReplaceAllAbsent(body, AMP_REF, [AMPERSAND]);
  }

  lemma PrePassPlain(body: Text)
    requires AMPERSAND !in body && body != [] && body[0] == NUMBER_SIGN
    ensures ReplaceAll([AMPERSAND] + body, AMP_REF, [AMPERSAND]) == [AMPERSAND] + body
  {
    var html := [AMPERSAND] + body;
    ReplaceAllAbsent(body, AMP_REF, [AMPERSAND]);
    if |html| >= |AMP_REF| {
      assert html[..|AMP_REF|] != AMP_REF by { assert html[1] != AMP_REF[1]; }
      assert html[1..] == body;
    }
  }

  /** Once decoding leaves a single code point, none of the later replacements applies. */
  lemma UnescapeSingleCodePoint(html: Text, n: CodePoint)
    requires DecodeAll(ReplaceAll(html, AMP_REF, [AMPERSAND])) == Ok([n])
    ensures UnescapeHtml(html) == Ok([n])
  {
    LaterPassesKeep([n]);
  }

  /** The pattern on its own is replaced whole. */
  lemma ReplaceAllWhole(pat: Text, rep: Text)
    requires pat != []
    ensures ReplaceAll(pat, pat, rep) == rep
  {
    assert pat[..|pat|] == pat;
    assert pat[|pat|..] == [];
  }

  /** A reference "&..." with no other '&' is left alone by a pattern "&..." that differs from it at position `k`. */
  lemma OtherReferenceKept(ref: Text, pat: Text, rep: Text, k: nat)
    requires |ref| >= 2 && ref[0] == AMPERSAND && AMPERSAND !in ref[1..]
    requires pat != [] && pat[0] == AMPERSAND && k < |pat| && k < |ref| && ref[k] != pat[k]
    ensures ReplaceAll(ref, pat, rep) == ref
  {
    ReplaceAllAbsent(ref[1..], pat, rep);
    if |ref| >= |pat| {
      assert ref[..|pat|] != pat by { assert ref[..|pat|][k] != pat[k]; }
    }
    assert ref == [ref[0]] + ref[1..];
  }

  /** A text whose only '&' comes first, not followed by '#', holds no numeric reference, so decoding keeps it. */
  lemma NoNumericReference(t: Text)
    requires |t| >= 2 && t[0] == AMPERSAND && t[1] != NUMBER_SIGN && AMPERSAND !in t[1..]
    ensures DecodeAll(t) == Ok(t)
  {
    forall q | 0 <= q ensures !RefAt(t, q) {
      if 0 < q < |t| {
        assert t[q] == t[1..][q - 1];
      }
    }
    NoMatchFrom(t, 0);
  }

  /** "&quot;" becomes '"'. */
  lemma UnescapeQuot()
    ensures UnescapeHtml(QUOT_REF) == Ok([QUOTATION_MARK])
  {
    OtherReferenceKept(QUOT_REF, AMP_REF, [AMPERSAND], 1);
    NoNumericReference(QUOT_REF);
    ReplaceAllWhole(QUOT_REF, [QUOTATION_MARK]);
    LaterPassesKeep([QUOTATION_MARK]);
  }

  /** "&apos;" becomes the apostrophe. */
  lemma UnescapeApos()
    ensures UnescapeHtml(APOS_REF) == Ok([APOSTROPHE])
  {
    OtherReferenceKept(APOS_REF, AMP_REF, [AMPERSAND], 2);
    NoNumericReference(APOS_REF);
    OtherReferenceKept(APOS_REF, QUOT_REF, [QUOTATION_MARK], 1);
    ReplaceAllWhole(APOS_REF, [APOSTROPHE]);
    LaterPassesKeep([APOSTROPHE]);
  }

  /** "&nbsp;" becomes a plain space (U+0020), not a no-break space. */
  lemma UnescapeNbsp()
    ensures UnescapeHtml(NBSP_REF) == Ok([SPACE])
  {
    OtherReferenceKept(NBSP_REF, AMP_REF, [AMPERSAND], 1);
    NoNumericReference(NBSP_REF);
    OtherReferenceKept(NBSP_REF, QUOT_REF, [QUOTATION_MARK], 1);
    OtherReferenceKept(NBSP_REF, APOS_REF, [APOSTROPHE], 1);
    ReplaceAllWhole(NBSP_REF, [SPACE]);
    LaterPassesKeep([SPACE]);
  }

  /** "&amp;" becomes '&', and no later pass touches it. */
  lemma UnescapeAmp()
    ensures UnescapeHtml(AMP_REF) == Ok([AMPERSAND])
  {
    ReplaceAllWhole(AMP_REF, [AMPERSAND]);
    assert Search([AMPERSAND]).None?;
    LaterPassesKeep([AMPERSAND]);
  }

  /** None of the replacements after the decoding applies to a single code point. */
  lemma LaterPassesKeep(t: Text)
    requires |t| == 1
    ensures ReplaceAll(t, QUOT_REF, [QUOTATION_MARK]) == t
    ensures ReplaceAll(t, APOS_REF, [APOSTROPHE]) == t
    ensures ReplaceAll(t, NBSP_REF, [SPACE]) == t
    ensures ReplaceAll(t, APOS_NUMERIC_REF, [APOSTROPHE]) == t
    ensures ReplaceAll(t, DOUBLE_ESCAPED_APOS_REF, [APOSTROPHE]) == t
    ensures ReplaceAll(t, AMP_REF, [AMPERSAND]) == t
  {
  }
}
