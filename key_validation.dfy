/**
 * Extraction and validation of the resource key from a request URL.
 *
 * The handler takes the URL, removes its first '/' (wherever it is), trims
 * JavaScript whitespace from both ends and rejects the request when the result
 * is empty or when `isNaN` holds of it. `isNaN` coerces its argument with
 * `Number()`, which turns a string into NaN exactly when the string does not
 * match the StringNumericLiteral grammar of ECMA-262 (section 7.1.4.1.1,
 * "StringToNumber"). Everything here is pure: no cache or upstream access.
 */
module KeyValidation {
  import opened Wrappers

  // ---------------------------------------------------------------------
  // `url.replace('/', '')`: a string pattern replaces its first occurrence only
  // ---------------------------------------------------------------------

  /** The string with its first '/' removed; unchanged when it has none. */
  function RemoveFirstSlash(s: string): (r: string)
    ensures '/' !in s ==> r == s
    ensures '/' in s ==> |r| == |s| - 1
  {
    if s == [] then []
    else if s[0] == '/' then s[1..]
    else [s[0]] + RemoveFirstSlash(s[1..])
  }

  /** The removed '/' is the first one: what precedes it and what follows it are kept, in order. */
  lemma {:induction false} RemoveFirstSlashAt(s: string, i: nat)
    requires i < |s| && s[i] == '/' && '/' !in s[..i]
    ensures RemoveFirstSlash(s) == s[..i] + s[i + 1..]
  {
    if i > 0 {
      assert s[0] == s[..i][0];
      assert s[1..][..i - 1] == s[1..i];
      RemoveFirstSlashAt(s[1..], i - 1);
      assert s[..i] == [s[0]] + s[1..][..i - 1];
      assert s[i + 1..] == s[1..][i..];
    }
  }

  // ---------------------------------------------------------------------
  // `String.prototype.trim`
  // ---------------------------------------------------------------------

  /**
   * The characters `trim` removes: WhiteSpace (TAB, VT, FF, ZWNBSP and the
   * Unicode category Zs) and LineTerminator (LF, CR, LS, PS), sections 12.2 and
   * 12.3 of ECMA-262. `Number()` skips the same set (StrWhiteSpaceChar).
   */
  predicate IsJsWhitespace(c: char)
  {
    || c == '\t' || c == '\U{000B}' || c == '\U{000C}' || c == '\U{FEFF}'
    || c == ' ' || c == '\U{00A0}' || c == '\U{1680}'
    || ('\U{2000}' <= c <= '\U{200A}')
    || c == '\U{202F}' || c == '\U{205F}' || c == '\U{3000}'
    || c == '\n' || c == '\r' || c == '\U{2028}' || c == '\U{2029}'
  }

  /** The number of whitespace characters at the start of `s`. */
  function LeadingSpace(s: string): (n: nat)
    ensures n <= |s|
    ensures forall k :: 0 <= k < n ==> IsJsWhitespace(s[k])
    ensures n < |s| ==> !IsJsWhitespace(s[n])
  {
    if s != [] && IsJsWhitespace(s[0]) then 1 + LeadingSpace(s[1..]) else 0
  }

  /** The number of whitespace characters at the end of `s`. */
  function TrailingSpace(s: string): (n: nat)
    ensures n <= |s|
    ensures forall k :: |s| - n <= k < |s| ==> IsJsWhitespace(s[k])
    ensures n < |s| ==> !IsJsWhitespace(s[|s| - 1 - n])
  {
    if s != [] && IsJsWhitespace(s[|s| - 1]) then 1 + TrailingSpace(s[..|s| - 1]) else 0
  }

  /**
   * `s.trim()`: the longest infix of `s` that neither starts nor ends with
   * whitespace, obtained by dropping whitespace only.
   */
  function Trim(s: string): (r: string)
    ensures r != [] ==> !IsJsWhitespace(r[0]) && !IsJsWhitespace(r[|r| - 1])
    ensures r == [] <==> forall k :: 0 <= k < |s| ==> IsJsWhitespace(s[k])
    ensures LeadingSpace(s) + |r| <= |s| && r == s[LeadingSpace(s)..LeadingSpace(s) + |r|]
    ensures forall k :: LeadingSpace(s) + |r| <= k < |s| ==> IsJsWhitespace(s[k])
  {
    var a := LeadingSpace(s);
    var t := s[a..];
    var b := TrailingSpace(t);
    var r := t[..|t| - b];
    TrimSlice(s, a, t, b, r);
    TrimTail(s, a, t, b, r);
    TrimEnds(s, a, t, b, r);
    TrimEmpty(s, a, t, b, r);
    r
  }

  // The steps of Trim's proof, on its intermediate values: `s` loses `a`
  // leading characters to give `t`, which loses `b` trailing ones to give `r`.

  lemma TrimSlice(s: string, a: nat, t: string, b: nat, r: string)
    requires a <= |s| && t == s[a..] && b <= |t| && r == t[..|t| - b]
    ensures a + |r| <= |s| && r == s[a..a + |r|]
  {
  }

  lemma TrimTail(s: string, a: nat, t: string, b: nat, r: string)
    requires a <= |s| && t == s[a..] && b <= |t| && r == t[..|t| - b]
    requires forall k :: |t| - b <= k < |t| ==> IsJsWhitespace(t[k])
    ensures forall k :: a + |r| <= k < |s| ==> IsJsWhitespace(s[k])
  {
    forall k | a + |r| <= k < |s| ensures IsJsWhitespace(s[k]) {
      assert s[k] == t[k - a];
    }
  }

  lemma TrimEnds(s: string, a: nat, t: string, b: nat, r: string)
    requires a <= |s| && t == s[a..] && b <= |t| && r == t[..|t| - b]
    requires a < |s| ==> !IsJsWhitespace(s[a])
    requires b < |t| ==> !IsJsWhitespace(t[|t| - 1 - b])
    ensures r != [] ==> !IsJsWhitespace(r[0]) && !IsJsWhitespace(r[|r| - 1])
  {
    if r != [] {
      assert r[0] == s[a];
      assert r[|r| - 1] == t[|t| - 1 - b];
    }
  }

  lemma TrimEmpty(s: string, a: nat, t: string, b: nat, r: string)
    requires a <= |s| && t == s[a..] && b <= |t| && r == t[..|t| - b]
    requires forall k :: 0 <= k < a ==> IsJsWhitespace(s[k])
    requires a < |s| ==> !IsJsWhitespace(s[a])
    requires forall k :: |t| - b <= k < |t| ==> IsJsWhitespace(t[k])
    ensures r == [] <==> forall k :: 0 <= k < |s| ==> IsJsWhitespace(s[k])
  {
    if r == [] {
      assert a == |s|;
    } else {
      assert a < |s| && !IsJsWhitespace(s[a]) by {
        assert r[0] == s[a];
      }
    }
  }

  // ---------------------------------------------------------------------
  // `isNaN(code)`, i.e. `Number(code)` is NaN
  // ---------------------------------------------------------------------

  predicate IsDecimalDigit(c: char) { '0' <= c <= '9' }

  predicate IsHexDigit(c: char) { IsDecimalDigit(c) || 'a' <= c <= 'f' || 'A' <= c <= 'F' }

  predicate IsOctalDigit(c: char) { '0' <= c <= '7' }

  predicate IsBinaryDigit(c: char) { c == '0' || c == '1' }

  /** Every character is a decimal digit (the empty string included). */
  predicate AllDecimalDigits(s: string)
  {
    forall i :: 0 <= i < |s| ==> IsDecimalDigit(s[i])
  }

  /** DecimalDigits: one or more decimal digits, no separators. */
  predicate IsDecimalDigits(s: string)
  {
    |s| > 0 && AllDecimalDigits(s)
  }

  /** SignedInteger: an optional sign followed by DecimalDigits. */
  predicate IsSignedInteger(s: string)
  {
    if |s| > 0 && (s[0] == '+' || s[0] == '-') then IsDecimalDigits(s[1..]) else IsDecimalDigits(s)
  }

  /** ExponentPart: 'e' or 'E' followed by a SignedInteger. */
  predicate IsExponentPart(s: string)
  {
    |s| > 0 && (s[0] == 'e' || s[0] == 'E') && IsSignedInteger(s[1..])
  }

  /**
   * The part of a StrUnsignedDecimalLiteral before its exponent:
   * `DecimalDigits`, `DecimalDigits . DecimalDigits?` or `. DecimalDigits`.
   */
  predicate IsDecimalMantissa(m: string)
  {
    || IsDecimalDigits(m)
    || exists d :: 0 <= d < |m| && m[d] == '.' && AllDecimalDigits(m[..d]) && AllDecimalDigits(m[d + 1..])
                   && (d > 0 || d + 1 < |m|)
  }

  /** StrUnsignedDecimalLiteral: `Infinity`, or a mantissa with an optional exponent. */
  predicate IsUnsignedDecimalLiteral(s: string)
  {
    || s == "Infinity"
    || exists k :: 0 <= k <= |s| && IsDecimalMantissa(s[..k]) && (k == |s| || IsExponentPart(s[k..]))
  }

  /** StrDecimalLiteral: an optional sign followed by a StrUnsignedDecimalLiteral. */
  predicate IsDecimalLiteral(s: string)
  {
    if |s| > 0 && (s[0] == '+' || s[0] == '-') then IsUnsignedDecimalLiteral(s[1..])
    else IsUnsignedDecimalLiteral(s)
  }

  /** NonDecimalIntegerLiteral: `0x`/`0X` hex, `0o`/`0O` octal or `0b`/`0B` binary digits (no sign). */
  predicate IsNonDecimalIntegerLiteral(s: string)
  {
    && |s| > 2 && s[0] == '0'
    && (|| ((s[1] == 'x' || s[1] == 'X') && forall i :: 2 <= i < |s| ==> IsHexDigit(s[i]))
        || ((s[1] == 'o' || s[1] == 'O') && forall i :: 2 <= i < |s| ==> IsOctalDigit(s[i]))
        || ((s[1] == 'b' || s[1] == 'B') && forall i :: 2 <= i < |s| ==> IsBinaryDigit(s[i])))
  }

  /**
   * StrNumericLiteral. For a string that is non-empty and carries no
   * surrounding whitespace (which is what `trim` leaves), `Number(s)` is not
   * NaN exactly when this holds.
   */
  predicate IsNumeric(s: string)
  {
    IsDecimalLiteral(s) || IsNonDecimalIntegerLiteral(s)
  }

  // ---------------------------------------------------------------------
  // The key check of the request handler
  // ---------------------------------------------------------------------

  /** `req.url.replace('/', '').trim()` */
  function ExtractCode(url: string): string
  {
    Trim(RemoveFirstSlash(url))
  }

  /** The characters a numeric literal can be made of. */
  predicate IsLiteralChar(c: char)
  {
    || IsHexDigit(c)
    || c == 'x' || c == 'X' || c == 'o' || c == 'O' || c == 'b' || c == 'B'
    || c == '.' || c == '+' || c == '-'
    || c == 'I' || c == 'n' || c == 'i' || c == 't' || c == 'y'
  }

  /**
   * The handler's guard `!code || isNaN(code)`: `None` is the 400 response,
   * `Some(code)` a key that goes on to the verb dispatch.
   */
  function Validate(url: string): (r: Option<string>)
    ensures r.Some? ==> r.value == ExtractCode(url)
    ensures r.Some? ==> r.value != [] && IsNumeric(r.value)
    ensures r.Some? ==> AllLiteralChars(r.value) && '/' !in r.value
    ensures r.None? ==> ExtractCode(url) == [] || !IsNumeric(ExtractCode(url))
  {
    var code := ExtractCode(url);
    if code == [] || !IsNumeric(code) then None
    else
      NumericLiteralChars(code);
      LiteralCharsExcludeSlash(code);
      Some(code)
  }

  // ---------------------------------------------------------------------
  // Lemmas
  // ---------------------------------------------------------------------

  /** The key of the URL `/` + `s`, for `s` without surrounding whitespace, is `s` itself. */
  lemma CodeOfPath(s: string)
    requires s != [] ==> !IsJsWhitespace(s[0]) && !IsJsWhitespace(s[|s| - 1])
    ensures ExtractCode("/" + s) == s
  {
    var u := "/" + s;
    assert u[0] == '/' && u[..0] == [] && u[1..] == s;
    var r := Trim(s);
    assert LeadingSpace(s) == 0;
  }

  /** Every character of `s` may occur in a numeric literal. */
  predicate AllLiteralChars(s: string)
  {
    forall i :: 0 <= i < |s| ==> IsLiteralChar(s[i])
  }

  lemma LiteralCharsExcludeSlash(s: string)
    requires AllLiteralChars(s)
    ensures '/' !in s
  {
  }

  lemma ConcatLiteralChars(a: string, b: string)
    requires AllLiteralChars(a) && AllLiteralChars(b)
    ensures AllLiteralChars(a + b)
  {
    assert forall i :: 0 <= i < |a + b| ==> (a + b)[i] == if i < |a| then a[i] else b[i - |a|];
  }

  /** Decimal digits are a numeric literal. */
  lemma DigitsAreNumeric(s: string)
    requires IsDecimalDigits(s)
    ensures IsNumeric(s)
  {
    assert s[..|s|] == s;
    assert IsDecimalMantissa(s[..|s|]);
  }

  /** Digits, a '.', digits (at least one digit in all) are a numeric literal. */
  lemma FractionIsNumeric(a: string, b: string)
    requires AllDecimalDigits(a) && AllDecimalDigits(b) && |a| + |b| > 0
    ensures IsNumeric(a + "." + b)
  {
    var s := a + "." + b;
    assert s[..|a|] == a && s[|a|] == '.' && s[|a| + 1..] == b;
    assert IsDecimalMantissa(s[..|s|]) by {
      assert s[..|s|] == s;
    }
  }

  /** Digits, an 'e', digits are a numeric literal. */
  lemma ExponentIsNumeric(a: string, e: string)
    requires IsDecimalDigits(a) && IsDecimalDigits(e)
    ensures IsNumeric(a + "e" + e)
  {
    var s := a + "e" + e;
    assert s[..|a|] == a && s[|a|..] == "e" + e && ("e" + e)[1..] == e;
    assert IsDecimalMantissa(s[..|a|]);
  }

  /** A '-' before an unsigned decimal literal keeps it numeric. */
  lemma NegativeIsNumeric(u: string)
    requires IsUnsignedDecimalLiteral(u)
    ensures IsNumeric("-" + u)
  {
    assert ("-" + u)[1..] == u;
  }

  /** A mantissa holds only decimal digits and a '.'. */
  lemma MantissaDigitsOrDot(m: string, i: nat)
    requires IsDecimalMantissa(m) && i < |m|
    ensures IsDecimalDigit(m[i]) || m[i] == '.'
  {
    if !IsDecimalDigits(m) {
      var d :| 0 <= d < |m| && m[d] == '.' && AllDecimalDigits(m[..d]) && AllDecimalDigits(m[d + 1..])
               && (d > 0 || d + 1 < |m|);
      if i < d {
        assert m[i] == m[..d][i];
      } else if i > d {
        assert m[i] == m[d + 1..][i - d - 1];
      }
    }
  }

  lemma MantissaChars(m: string)
    requires IsDecimalMantissa(m)
    ensures AllLiteralChars(m)
  {
    forall i | 0 <= i < |m| ensures IsLiteralChar(m[i]) {
      MantissaDigitsOrDot(m, i);
    }
  }

  lemma ExponentChars(e: string)
    requires IsExponentPart(e)
    ensures AllLiteralChars(e)
  {
    var t := e[1..];
    if |t| > 0 && (t[0] == '+' || t[0] == '-') {
      assert t == [t[0]] + t[1..];
      ConcatLiteralChars([t[0]], t[1..]);
    }
    assert e == [e[0]] + t;
    ConcatLiteralChars([e[0]], t);
  }

  lemma UnsignedDecimalChars(u: string)
    requires IsUnsignedDecimalLiteral(u)
    ensures AllLiteralChars(u)
  {
    if u != "Infinity" {
      var k :| 0 <= k <= |u| && IsDecimalMantissa(u[..k]) && (k == |u| || IsExponentPart(u[k..]));
      MantissaChars(u[..k]);
      if k < |u| {
        ExponentChars(u[k..]);
        assert u == u[..k] + u[k..];
        ConcatLiteralChars(u[..k], u[k..]);
      } else {
        assert u == u[..k];
      }
    }
  }

  /** Only characters of IsLiteralChar occur in a numeric literal; in particular no '/', '?' or space. */
  lemma NumericLiteralChars(s: string)
    requires IsNumeric(s)
    ensures AllLiteralChars(s)
  {
    if IsNonDecimalIntegerLiteral(s) {
      return;
    }
    if |s| > 0 && (s[0] == '+' || s[0] == '-') {
      UnsignedDecimalChars(s[1..]);
      assert s == [s[0]] + s[1..];
      ConcatLiteralChars([s[0]], s[1..]);
    } else {
      UnsignedDecimalChars(s);
    }
  }
}
