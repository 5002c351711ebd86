/**
 * How the genome scale writes a position for people: `"chr" + chromosome + ":" +
 * position`, where JavaScript's `+` turns the integer position into its decimal
 * digits. A parser for such labels is the inverse used to show that the label
 * determines its chromosome and position.
 */
module HumanFormat {
  import opened Wrappers

  predicate IsDigit(ch: char)
  {
    '0' <= ch <= '9'
  }

  predicate AllDigits(s: string)
  {
    forall i :: 0 <= i < |s| ==> IsDigit(s[i])
  }

  function DigitChar(d: int): (ch: char)
    requires 0 <= d < 10
    ensures IsDigit(ch) && ch as int - '0' as int == d
  {
    (d + '0' as int) as char
  }

  /** A non-empty string of decimal digits with no leading zero (so "0" itself is allowed). */
  predicate CanonicalDigits(s: string)
  {
    |s| > 0 && AllDigits(s) && (|s| > 1 ==> s[0] != '0')
  }

  /** The decimal digits of a natural number, without leading zeros. */
  function NaturalDigits(n: nat): (s: string)
    ensures CanonicalDigits(s)
  {
    if n < 10 then [DigitChar(n)] else NaturalDigits(n / 10) + [DigitChar(n % 10)]
  }

  /** An integer as JavaScript's string conversion writes it: a minus sign for negatives, then the digits. */
  function DecimalString(n: int): (s: string)
    ensures ':' !in s
  {
    if n < 0 then "-" + NaturalDigits(-n) else NaturalDigits(n)
  }

  /** The number a string of decimal digits denotes. */
  function DigitsValue(s: string): nat
    requires AllDigits(s)
  {
    if s == [] then 0 else DigitsValue(s[..|s| - 1]) * 10 + (s[|s| - 1] as int - '0' as int)
  }

  /**
   * Reads an integer written the way `DecimalString` writes one: canonical digits,
   * optionally preceded by a minus sign when the number is not zero. `None` for
   * anything else, including leading zeros and "-0".
   */
  function ParseDecimal(s: string): Option<int>
  {
    if CanonicalDigits(s) then Some(DigitsValue(s))
    else if |s| > 1 && s[0] == '-' && CanonicalDigits(s[1..]) && s[1..] != "0" then
      Some(-(DigitsValue(s[1..]) as int))
    else None
  }

  lemma {:induction false} NaturalDigitsRoundTrip(n: nat)
    ensures DigitsValue(NaturalDigits(n)) == n
  {
    if n >= 10 {
      var s := NaturalDigits(n);
      assert s[..|s| - 1] == NaturalDigits(n / 10);
      NaturalDigitsRoundTrip(n / 10);
    }
  }

  /** Reading back the decimal form of any integer gives that integer. */
  lemma DecimalRoundTrip(n: int)
    ensures ParseDecimal(DecimalString(n)) == Some(n)
  {
    if n < 0 {
      NaturalDigitsRoundTrip(-n);
      assert DecimalString(n)[1..] == NaturalDigits(-n);
      assert NaturalDigits(-n) != "0" by {
        assert DigitsValue("0") == 0 by {
          assert "0"[..0] == [];
        }
      }
      assert !CanonicalDigits(DecimalString(n)) by {
        assert !IsDigit(DecimalString(n)[0]);
      }
    } else {
      NaturalDigitsRoundTrip(n);
    }
  }

  /** Canonical digits that are not "0" denote a positive number. */
  lemma {:induction false} CanonicalDigitsPositive(s: string)
    requires CanonicalDigits(s) && s != "0"
    ensures DigitsValue(s) > 0
  {
    if |s| == 1 {
      assert s == [s[0]] && s[0] != '0';
      assert s[..0] == [];
    } else {
      var front := s[..|s| - 1];
      assert front[0] == s[0];
      if |front| == 1 {
        assert front != "0";
      }
      CanonicalDigitsPositive(front);
    }
  }

  /** Canonical digits are the digits of the number they denote. */
  lemma {:induction false} NaturalDigitsOfValue(s: string)
    requires CanonicalDigits(s)
    ensures NaturalDigits(DigitsValue(s)) == s
  {
    var n := |s|;
    var last := s[n - 1] as int - '0' as int;
    if n == 1 {
      assert s[..0] == [];
      assert DigitsValue(s) == last;
      assert [DigitChar(last)] == s;
    } else {
      var front := s[..n - 1];
      assert front[0] == s[0];
      if |front| == 1 {
        assert front != "0";
      }
      CanonicalDigitsPositive(front);
      NaturalDigitsOfValue(front);
      var v := DigitsValue(s);
      assert v == DigitsValue(front) * 10 + last;
      assert v / 10 == DigitsValue(front) && v % 10 == last;
      assert s == front + [DigitChar(last)];
    }
  }

  /** The only string read as `n` is the decimal form of `n`. */
  lemma ParseDecimalCanonical(s: string, n: int)
    requires ParseDecimal(s) == Some(n)
    ensures s == DecimalString(n)
  {
    if CanonicalDigits(s) {
      NaturalDigitsOfValue(s);
    } else {
      var digits := s[1..];
      CanonicalDigitsPositive(digits);
      NaturalDigitsOfValue(digits);
      assert s == "-" + digits;
    }
  }

  /** The index of the last occurrence of `ch` in `s`, or -1 when there is none. */
  function LastIndexOf(s: string, ch: char): (k: int)
    ensures -1 <= k < |s|
    ensures k == -1 <==> ch !in s
    ensures 0 <= k ==> s[k] == ch && forall j :: k < j < |s| ==> s[j] != ch
  {
    if s == [] then -1
    else if s[|s| - 1] == ch then |s| - 1
    else LastIndexOf(s[..|s| - 1], ch)
  }

  /**
   * Splits a label `"chr" + chromosome + ":" + position` at its last colon, so a
   * chromosome name may itself contain colons.
   */
  function ParseHuman(s: string): Option<(string, int)>
  {
    if |s| < 3 || s[..3] != "chr" then None
    else
      var k := LastIndexOf(s, ':');
      if k < 3 then None
      else match ParseDecimal(s[k + 1..])
        case None => None
        case Some(p) => Some((s[3..k], p))
  }

  /** Every label built from a chromosome and a position reads back as that pair. */
  lemma ParseHumanInverts(chromosome: string, position: int)
    ensures ParseHuman("chr" + chromosome + ":" + DecimalString(position)) == Some((chromosome, position))
  {
    var digits := DecimalString(position);
    var s := "chr" + chromosome + ":" + digits;
    var k := 3 + |chromosome|;
    assert s[k] == ':';
    assert forall j :: k < j < |s| ==> s[j] == digits[j - k - 1];
    assert LastIndexOf(s, ':') == k;
    assert s[..3] == "chr" && s[3..k] == chromosome && s[k + 1..] == digits;
    DecimalRoundTrip(position);
  }

  /** The only string read as a given chromosome and position is the label built from them. */
  lemma ParseHumanCanonical(s: string, chromosome: string, position: int)
    requires ParseHuman(s) == Some((chromosome, position))
    ensures s == "chr" + chromosome + ":" + DecimalString(position)
  {
    var k := LastIndexOf(s, ':');
    ParseDecimalCanonical(s[k + 1..], position);
    assert s == s[..3] + s[3..k] + [s[k]] + s[k + 1..];
  }

  /** Labels and parsed pairs correspond one to one. */
  lemma LabelsCanonical(chromosome: string, position: int)
    ensures forall s :: ParseHuman(s) == Some((chromosome, position)) <==>
      s == "chr" + chromosome + ":" + DecimalString(position)
  {
    ParseHumanInverts(chromosome, position);
    forall s | ParseHuman(s) == Some((chromosome, position))
      ensures s == "chr" + chromosome + ":" + DecimalString(position)
    {
      ParseHumanCanonical(s, chromosome, position);
    }
  }
}
