/** Input masks applied while the customer types card data: the card number in
    groups of four, the expiry as MM/YY and the three-digit CVV. Each keeps only
    the digits of what was typed. */
module Masks {
  import opened Text

  function Min(a: int, b: int): int {
    if a <= b then a else b
  }

  // ------------------------------------------------------------ card number

  /** `digits.replace(/(\d{4})/g, '$1 ')`: a space after every complete group of four. */
  function SpaceAfterQuads(d: string): string {
    if |d| >= 4 then d[..4] + " " + SpaceAfterQuads(d[4..]) else d
  }

  /** `maskCreditCard`: keep the digits, space them in fours, trim, cut at 19 characters. */
  function MaskCreditCard(value: string): string {
    var spaced := Trim(SpaceAfterQuads(Digits(value)));
    spaced[..Min(19, |spaced|)]
  }

  /** The intended display: groups of four joined by single spaces. */
  function Grouped(d: string): string {
    if |d| <= 4 then d else d[..4] + " " + Grouped(d[4..])
  }

  lemma {:induction false} GroupedLength(d: string)
    ensures |Grouped(d)| == if d == [] then 0 else |d| + (|d| - 1) / 4
  {
    if |d| > 4 {
      GroupedLength(d[4..]);
    }
  }

  /** A group string holds only digits and spaces, starts and ends with a digit,
      and its digits are exactly the input. */
  lemma {:induction false} GroupedShape(d: string)
    requires AllDigits(d)
    ensures forall i :: 0 <= i < |Grouped(d)| ==> IsDigit(Grouped(d)[i]) || Grouped(d)[i] == ' '
    ensures d != [] ==> IsDigit(Grouped(d)[0]) && IsDigit(Grouped(d)[|Grouped(d)| - 1])
    ensures Digits(Grouped(d)) == d
  {
    if |d| <= 4 {
      DigitsOfDigits(d);
    } else {
      GroupedShape(d[4..]);
      var rest := Grouped(d[4..]);
      assert Grouped(d) == d[..4] + " " + rest;
      DigitsAppend(d[..4] + " ", rest);
      DigitsAppend(d[..4], " ");
      DigitsOfDigits(d[..4]);
      assert Digits(" ") == [] by {
        assert " "[1..] == [];
      }
      assert d[..4] + d[4..] == d;
    }
  }

  /** Cutting a digit string after a multiple of four splits its grouping at a space. */
  lemma {:induction false} GroupedSplit(d: string, k: nat)
    requires k % 4 == 0 && 0 < k < |d|
    ensures Grouped(d) == Grouped(d[..k]) + " " + Grouped(d[k..])
  {
    if k == 4 {
      assert d[..k][..4] == d[..4];
    } else {
      GroupedSplit(d[4..], k - 4);
      assert d[4..][..k - 4] == d[..k][4..];
      assert d[4..][k - 4..] == d[k..];
      assert d[..k][..4] == d[..4];
    }
  }

  /** Appending whitespace-free text that survives trimming keeps its prefix intact. */
  lemma {:induction false} TrimEndAppend(a: string, x: string)
    requires TrimEnd(x) != []
    ensures TrimEnd(a + x) == a + TrimEnd(x)
  {
    if IsWhitespace(x[|x| - 1]) {
      assert (a + x)[..|a + x| - 1] == a + x[..|x| - 1];
      TrimEndAppend(a, x[..|x| - 1]);
    }
  }

  lemma DigitNotWhitespace(c: char)
    requires IsDigit(c)
    ensures !IsWhitespace(c)
  {
  }

  lemma SpacingStartsWithDigit(d: string)
    requires AllDigits(d) && d != []
    ensures SpaceAfterQuads(d) != [] && SpaceAfterQuads(d)[0] == d[0]
  {
  }

  /** The regular-expression replacement followed by `trim` is the grouping. */
  lemma {:induction false} TrimmedSpacing(d: string)
    requires AllDigits(d)
    ensures Trim(SpaceAfterQuads(d)) == Grouped(d)
  {
    if |d| < 4 {
      TrimOfTrimmed(d);
    } else if |d| == 4 {
      assert SpaceAfterQuads(d) == d + " " by {
        assert d[..4] == d && d[4..] == [];
      }
      assert TrimEnd(d + " ") == d by {
        assert (d + " ")[..4] == d;
      }
    } else {
      TrimmedSpacing(d[4..]);
      TrimmedSpacingStep(d);
    }
  }

  /** One group of four in front of a grouping that already trims correctly. */
  lemma TrimmedSpacingStep(d: string)
    requires AllDigits(d) && |d| > 4
    requires Trim(SpaceAfterQuads(d[4..])) == Grouped(d[4..])
    ensures Trim(SpaceAfterQuads(d)) == Grouped(d)
  {
    var x := SpaceAfterQuads(d[4..]);
    SpacingStartsWithDigit(d[4..]);
    SpacingStartsWithDigit(d);
    GroupedShape(d[4..]);
    assert TrimEnd(x) == Grouped(d[4..]) by {
      DigitNotWhitespace(x[0]);
      assert TrimStart(x) == x;
    }
    TrimEndAppend(d[..4] + " ", x);
    assert TrimStart(SpaceAfterQuads(d)) == SpaceAfterQuads(d) by {
      DigitNotWhitespace(d[0]);
    }
    calc {
      Trim(SpaceAfterQuads(d));
      TrimEnd(SpaceAfterQuads(d));
      TrimEnd(d[..4] + " " + x);
      d[..4] + " " + TrimEnd(x);
      Grouped(d);
    }
  }

  /** What the mask shows: the first sixteen digits typed, in groups of four. */
  lemma MaskCreditCardGroups(value: string)
    ensures var d := Digits(value);
            MaskCreditCard(value) == Grouped(d[..Min(16, |d|)])
  {
    var d := Digits(value);
    var spaced := Trim(SpaceAfterQuads(d));
    assert spaced == Grouped(d) by {
      TrimmedSpacing(d);
    }
    if |d| > 16 {
      var g := Grouped(d[..16]);
      assert |g| == 19 by {
        GroupedLength(d[..16]);
      }
      assert spaced == g + " " + Grouped(d[16..]) by {
        GroupedSplit(d, 16);
      }
      assert spaced[..19] == g;
    } else {
      assert |spaced| <= 19 by {
        GroupedLength(d);
      }
      assert d[..Min(16, |d|)] == d;
    }
  }

  /** The masked card number is at most 19 characters of digits and spaces, and
      dropping the spaces leaves the first min(n, 16) digits typed. */
  lemma MaskCreditCardContents(value: string)
    ensures var r, d := MaskCreditCard(value), Digits(value);
            && |r| <= 19
            && (forall i :: 0 <= i < |r| ==> IsDigit(r[i]) || r[i] == ' ')
            && Digits(r) == d[..Min(16, |d|)]
  {
    var d := Digits(value);
    MaskCreditCardGroups(value);
    GroupedShape(d[..Min(16, |d|)]);
    GroupedLength(d[..Min(16, |d|)]);
  }

  /** Sixteen digits group as four blocks of four joined by single spaces. */
  lemma GroupedSixteen(d: string)
    requires |d| == 16
    ensures Grouped(d) == d[..4] + " " + d[4..8] + " " + d[8..12] + " " + d[12..]
  {
    var a, b, c, e := d[..4], d[4..8], d[8..12], d[12..];
    assert Grouped(d[8..]) == c + " " + e by {
      assert d[8..][..4] == c && d[8..][4..] == e;
    }
    assert Grouped(d[4..]) == b + " " + (c + " " + e) by {
      assert d[4..][..4] == b && d[4..][4..] == d[8..];
    }
    assert a + " " + (b + " " + (c + " " + e)) == a + " " + b + " " + c + " " + e;
  }

  /** Sixteen digits show as four groups of four with single spaces and no trailing space. */
  lemma MaskSixteenDigits(value: string)
    requires |Digits(value)| == 16
    ensures var d := Digits(value);
            MaskCreditCard(value) == d[..4] + " " + d[4..8] + " " + d[8..12] + " " + d[12..]
  {
    var d := Digits(value);
    MaskCreditCardGroups(value);
    assert d[..Min(16, |d|)] == d;
    GroupedSixteen(d);
  }

  /** Masking an already masked card number changes nothing. */
  lemma MaskCreditCardIdempotent(value: string)
    ensures MaskCreditCard(MaskCreditCard(value)) == MaskCreditCard(value)
  {
    var d := Digits(value);
    var shown := d[..Min(16, |d|)];
    MaskCreditCardGroups(value);
    GroupedShape(shown);
    MaskCreditCardGroups(MaskCreditCard(value));
    assert shown[..Min(16, |shown|)] == shown;
  }

  // ----------------------------------------------------------------- expiry

  /** `maskExpiryDate`: fewer than two digits are shown as typed; otherwise the
      first two, a slash, and the next up to two. */
  function MaskExpiryDate(value: string): string {
    var d := Digits(value);
    if |d| >= 2 then d[..2] + "/" + d[2..Min(4, |d|)] else d
  }

  /** The expiry mask is at most "MM/YY": five characters whose digits are the
      first four typed, with the slash right after the second digit. */
  lemma MaskExpiryDateContents(value: string)
    ensures var r, d := MaskExpiryDate(value), Digits(value);
            && |r| <= 5
            && Digits(r) == d[..Min(4, |d|)]
            && (|d| < 2 ==> r == d)
            && (|d| >= 2 ==> |r| >= 3 && r[2] == '/' && r[..2] == d[..2])
            && (|d| >= 2 ==> r[3..] == d[2..Min(4, |d|)])
  {
    var d := Digits(value);
    if |d| >= 2 {
      var n := Min(4, |d|);
      var mm, yy := d[..2], d[2..n];
      var r := MaskExpiryDate(value);
      assert r == mm + "/" + yy;
      assert r[3..] == yy;
      assert |r| <= 5 && r[2] == '/' && r[..2] == mm;
      DigitsAroundSlash(mm, yy);
      assert mm + yy == d[..n];
    } else {
      DigitsOfDigits(d);
    }
  }

  /** Dropping the non-digits of "MM/YY" leaves "MMYY". */
  lemma DigitsAroundSlash(mm: string, yy: string)
    requires AllDigits(mm) && AllDigits(yy)
    ensures Digits(mm + "/" + yy) == mm + yy
  {
    DigitsOfNonDigit('/');
    DigitsAppend(mm + "/", yy);
    DigitsAppend(mm, "/");
    DigitsOfDigits(mm);
    DigitsOfDigits(yy);
    assert mm + [] == mm;
  }

  /** Masking an already masked expiry changes nothing. */
  lemma MaskExpiryDateIdempotent(value: string)
    ensures MaskExpiryDate(MaskExpiryDate(value)) == MaskExpiryDate(value)
  {
    var d := Digits(value);
    MaskExpiryDateContents(value);
    var r := MaskExpiryDate(value);
    var e := d[..Min(4, |d|)];
    assert Digits(r) == e;
    if |d| >= 2 {
      assert e[..2] == d[..2] && e[2..Min(4, |e|)] == d[2..Min(4, |d|)];
    } else {
      DigitsOfDigits(d);
    }
  }

  // -------------------------------------------------------------------- CVV

  /** `maskCVV`: the first up to three digits typed, and nothing else. */
  function MaskCvv(value: string): (r: string)
    ensures r <= Digits(value)
    ensures |r| == Min(3, |Digits(value)|)
    ensures AllDigits(r)
  {
    var d := Digits(value);
    d[..Min(3, |d|)]
  }

  /** Masking an already masked CVV changes nothing. */
  lemma MaskCvvIdempotent(value: string)
    ensures MaskCvv(MaskCvv(value)) == MaskCvv(value)
  {
    DigitsOfDigits(MaskCvv(value));
  }
}
