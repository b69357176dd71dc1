/**
 * StringLongSerializer: a Kotlin Long carried on the wire as a decimal string.
 * `serialize` is `Long.toString()`; `deserialize` is `String.toLong()`, which
 * throws a NumberFormatException on anything that is not a decimal numeral in
 * the signed 64-bit range.
 */
module StringLongSerializer {
  import opened Wrappers
  import opened Ints

  predicate IsDigit(c: char) { '0' <= c <= '9' }

  predicate IsSign(c: char) { c == '-' || c == '+' }

  predicate AllDigits(s: string) { forall i :: 0 <= i < |s| ==> IsDigit(s[i]) }

  function DigitValue(c: char): nat
    requires IsDigit(c)
  {
    c as int - '0' as int
  }

  function DigitChar(d: nat): char
    requires d < 10
  {
    ('0' as int + d) as char
  }

  /** The number a string of decimal digits denotes, most significant digit first. */
  function Magnitude(s: string): nat
    requires AllDigits(s)
  {
    if |s| == 0 then 0 else Magnitude(s[..|s| - 1]) * 10 + DigitValue(s[|s| - 1])
  }

  /** The shortest decimal digits of `n`. */
  function Digits(n: nat): (d: string)
    ensures |d| >= 1 && AllDigits(d)
  {
    if n < 10 then [DigitChar(n)] else Digits(n / 10) + [DigitChar(n % 10)]
  }

  /** `Long.toString()`: a minus sign exactly for a negative number, then decimal digits. */
  function Serialize(n: Int64): (s: string)
    ensures |s| >= 1 && (s[0] == '-' <==> n < 0)
  {
    if n < 0 then "-" + Digits(-(n as int)) else Digits(n)
  }

  /**
   * `String.toLong()`: an optional '-' or '+', then at least one decimal digit;
   * leading zeros are accepted; a value outside the 64-bit range is an error.
   */
  function Deserialize(s: string): (r: Outcome<Int64>)
    ensures r.Exn? ==> r.cause == NumberFormat(s)
    ensures r.Ok? ==> |s| >= 1 && (r.value < 0 ==> s[0] == '-')
  {
    var signed := |s| > 0 && IsSign(s[0]);
    var digits := if signed then s[1..] else s;
    if |digits| == 0 || !AllDigits(digits) then Exn(NumberFormat(s))
    else
      var v := if signed && s[0] == '-' then -(Magnitude(digits) as int) else Magnitude(digits);
      if IsInt64(v) then Ok(v) else Exn(NumberFormat(s))
  }

  /** The form `Long.toString()` produces: "0", or an optional '-' and digits without a leading zero. */
  predicate IsCanonical(s: string) {
    || s == "0"
    || (|s| >= 1 && '1' <= s[0] <= '9' && AllDigits(s))
    || (|s| >= 2 && s[0] == '-' && '1' <= s[1] <= '9' && AllDigits(s[1..]))
  }

  // ---------------------------------------------------------------------------
  // Digits and Magnitude are inverse on canonical digit strings.

  lemma {:induction false} DigitsShape(n: nat)
    ensures |Digits(n)| >= 1 && AllDigits(Digits(n))
    ensures n >= 1 ==> Digits(n)[0] != '0'
    ensures Magnitude(Digits(n)) == n
    decreases n
  {
    if n >= 10 {
      DigitsShape(n / 10);
      var d := Digits(n);
      assert d[..|d| - 1] == Digits(n / 10);
    }
  }

  lemma {:induction false} MagnitudePositive(s: string)
    requires |s| >= 1 && AllDigits(s) && s[0] != '0'
    ensures Magnitude(s) >= 1
    decreases |s|
  {
    if |s| > 1 {
      MagnitudePositive(s[..|s| - 1]);
    }
  }

  lemma {:induction false} DigitsOfMagnitude(s: string)
    requires |s| >= 1 && AllDigits(s) && (|s| == 1 || s[0] != '0')
    ensures Digits(Magnitude(s)) == s
    decreases |s|
  {
    if |s| > 1 {
      var p := s[..|s| - 1];
      MagnitudePositive(p);
      DigitsOfMagnitude(p);
      assert s == p + [s[|s| - 1]];
    }
  }

  // ---------------------------------------------------------------------------
  // Properties of the codec.

  /** `serialize` always yields the canonical decimal form. */
  lemma SerializeCanonical(n: Int64)
    ensures IsCanonical(Serialize(n))
  {
    DigitsShape(if n < 0 then -(n as int) else n);
    if n < 0 {
      assert Serialize(n)[1..] == Digits(-(n as int));
    } else if n == 0 {
      assert Digits(0) == "0";
    }
  }

  /** For every 64-bit integer, decoding its decimal form gives it back. */
  lemma RoundTrip(n: Int64)
    ensures Deserialize(Serialize(n)) == Ok(n)
  {
    var m: nat := if n < 0 then -(n as int) else n;
    DigitsShape(m);
    if n < 0 {
      assert Serialize(n)[1..] == Digits(m);
    }
  }

  /** A string of the canonical form decodes (when in range) to the number whose form it is. */
  lemma CanonicalReencodes(s: string)
    requires IsCanonical(s) && Deserialize(s).Ok?
    ensures Serialize(Deserialize(s).value) == s
  {
    if s[0] == '-' {
      var d := s[1..];
      DigitsOfMagnitude(d);
      MagnitudePositive(d);
      assert Serialize(Deserialize(s).value) == "-" + d;
    } else {
      DigitsOfMagnitude(s);
    }
  }

  /**
   * Re-encoding a decoded value reproduces the input exactly when the input
   * was canonical: "+5", "007" and "-0" decode, but not to their own spelling.
   */
  lemma ReencodeIff(s: string)
    requires Deserialize(s).Ok?
    ensures Serialize(Deserialize(s).value) == s <==> IsCanonical(s)
  {
    if IsCanonical(s) {
      CanonicalReencodes(s);
    } else {
      SerializeCanonical(Deserialize(s).value);
    }
  }

  lemma LenientForms()
    ensures Deserialize("+5") == Ok(5) && Deserialize("007") == Ok(7) && Deserialize("-0") == Ok(0)
    ensures !IsCanonical("+5") && !IsCanonical("007") && !IsCanonical("-0")
  {
    assert Magnitude("5") == 5;
    assert Magnitude("0") == 0;
    assert "007"[..2] == "00" && "00"[..1] == "0";
  }

  /** The empty string and a lone sign are format errors. */
  lemma EmptyFails()
    ensures Deserialize("") == Exn(NumberFormat(""))
    ensures Deserialize("-") == Exn(NumberFormat("-")) && Deserialize("+") == Exn(NumberFormat("+"))
  {
  }

  /** A character that is neither a digit nor a leading sign makes decoding fail. */
  lemma NonNumericFails(s: string, i: nat)
    requires i < |s| && !IsDigit(s[i]) && !(i == 0 && IsSign(s[0]))
    ensures Deserialize(s) == Exn(NumberFormat(s))
  {
    if |s| > 0 && IsSign(s[0]) {
      assert s[1..][i - 1] == s[i];
    }
  }

  /** A well-formed numeral whose value lies outside the signed 64-bit range is a format error. */
  lemma OutOfRangeFails(s: string)
    requires |s| >= 1 && AllDigits(s)
    ensures Magnitude(s) > Int64Max ==> Deserialize(s) == Exn(NumberFormat(s))
    ensures Magnitude(s) > -Int64Min ==> Deserialize("-" + s) == Exn(NumberFormat("-" + s))
    ensures Magnitude(s) <= -Int64Min ==> Deserialize("-" + s) == Ok(-(Magnitude(s) as int))
  {
    assert IsDigit(s[0]) && !IsSign(s[0]);
    var t := "-" + s;
    assert t[0] == '-' && t[1..] == s;
    assert IsSign(t[0]) && AllDigits(t[1..]);
  }
}
