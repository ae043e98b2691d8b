/**
 * What the key check decides for concrete URLs: what `isNaN` accepts and refuses.
 */
module KeyExamples {
  import opened Wrappers
  import opened KeyValidation

  /** The URL `/` + `s`, for `s` without surrounding whitespace, is decided by `s` alone. */
  lemma ValidateOfPath(s: string)
    requires s != [] ==> !IsJsWhitespace(s[0]) && !IsJsWhitespace(s[|s| - 1])
    ensures Validate("/" + s) == if s != [] && IsNumeric(s) then Some(s) else None
  {
    CodeOfPath(s);
  }

  /** A string holding a character no numeric literal has is not numeric. */
  lemma NotNumericByChar(s: string, i: nat)
    requires i < |s| && !IsLiteralChar(s[i])
    ensures !IsNumeric(s)
  {
    if IsNumeric(s) {
      NumericLiteralChars(s);
    }
  }

  // Each example takes the URL as a parameter fixed by its precondition, so
  // that the proof reasons about the key instead of evaluating every function
  // on the literal.

  /** `isNaN` refuses a numeric prefix followed by other characters. */
  lemma PrefixNumericRejected(url: string)
    requires url == "/12abc"
    ensures Validate(url) == None
  {
    var s := url[1..];
    assert !IsNumeric(s) by {
      assert !IsNonDecimalIntegerLiteral(s) && s[0] != '+' && s[0] != '-' && s != "Infinity";
      forall k | 0 <= k <= |s|
        ensures !(IsDecimalMantissa(s[..k]) && (k == |s| || IsExponentPart(s[k..])))
      {
        if k <= 2 {
          assert s[k..][0] == s[k];
        } else if IsDecimalMantissa(s[..k]) {
          assert s[..k][2] == 'a';
          MantissaDigitsOrDot(s[..k], 2);
        }
      }
    }
    ValidateOfPath(s);
    assert "/" + s == url;
  }

  /** The request the handler's comment names: no code in the URL. */
  lemma FaviconRejected(url: string)
    requires url == "/favicon.ico"
    ensures Validate(url) == None
  {
    var s := url[1..];
    NotNumericByChar(s, 2);
    ValidateOfPath(s);
    assert "/" + s == url;
  }

  /** A bare `/` leaves an empty key. */
  lemma EmptyKeyRejected(url: string)
    requires url == "/"
    ensures Validate(url) == None
  {
    ValidateOfPath(url[1..]);
    assert "/" + url[1..] == url;
  }

  lemma IntegerKeyAccepted(url: string)
    requires url == "/418"
    ensures Validate(url) == Some("418")
  {
    var s := url[1..];
    DigitsAreNumeric(s);
    ValidateOfPath(s);
    assert "/" + s == url;
  }

  lemma FractionKeyAccepted(url: string)
    requires url == "/1.5"
    ensures Validate(url) == Some("1.5")
  {
    var s := url[1..];
    assert IsNumeric(s) by {
      var a, b := s[..1], s[2..];
      assert a == "1" && b == "5";
      assert s == a + "." + b;
      FractionIsNumeric(a, b);
    }
    ValidateOfPath(s);
    assert "/" + s == url;
  }

  lemma SignedKeyAccepted(url: string)
    requires url == "/-3"
    ensures Validate(url) == Some("-3")
  {
    var s := url[1..];
    assert IsNumeric(s) by {
      assert s == "-" + s[1..];
      DigitsAreNumeric(s[1..]);
      NegativeIsNumeric(s[1..]);
    }
    ValidateOfPath(s);
    assert "/" + s == url;
  }

  lemma HexKeyAccepted(url: string)
    requires url == "/0x1F"
    ensures Validate(url) == Some("0x1F")
  {
    var s := url[1..];
    assert IsNonDecimalIntegerLiteral(s);
    ValidateOfPath(s);
    assert "/" + s == url;
  }

  lemma ExponentKeyAccepted(url: string)
    requires url == "/1e3"
    ensures Validate(url) == Some("1e3")
  {
    var s := url[1..];
    assert IsNumeric(s) by {
      assert s == s[..1] + "e" + s[2..];
      ExponentIsNumeric(s[..1], s[2..]);
    }
    ValidateOfPath(s);
    assert "/" + s == url;
  }

  lemma InfinityKeyAccepted(url: string)
    requires url == "/Infinity"
    ensures Validate(url) == Some("Infinity")
  {
    var s := url[1..];
    assert IsNumeric(s) by {
      assert s == "Infinity";
      assert IsUnsignedDecimalLiteral(s);
    }
    ValidateOfPath(s);
    assert "/" + s == url;
  }
}
