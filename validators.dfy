/** Payment-card checks the checkout runs in the browser: the card-number
    checksum (the Luhn "double-add-double" mod-10 check of ISO/IEC 7812-1,
    Annex B, on exactly 16 digits) and the month/year expiry check. */
module Validators {
  import opened Text

  // ------------------------------------------------------------ card number

  /** Whether the digit at position `p`, counted from the right with the check
      digit at 0, is doubled: every second digit starting at the second-from-last. */
  predicate Doubled(p: nat) {
    p % 2 == 1
  }

  /** One digit's contribution to the sum: doubled digits above 9 lose 9. */
  function LuhnTerm(c: char, doubled: bool): (t: int)
    requires IsDigit(c)
    ensures 0 <= t <= 9
  {
    var v := DigitValue(c);
    if doubled then (if 2 * v > 9 then 2 * v - 9 else 2 * v) else v
  }

  /** The checksum of a digit string, each digit weighted by its position from the right. */
  function LuhnSum(ds: string): int
    requires AllDigits(ds)
  {
    if ds == [] then 0 else LuhnTerm(ds[0], Doubled(|ds| - 1)) + LuhnSum(ds[1..])
  }

  /** What `validateCreditCardNumber` accepts: 16 digits once every non-digit is
      dropped, whose checksum is a multiple of 10. */
  predicate IsValidCardNumber(number: string) {
    var ds := Digits(number);
    |ds| == 16 && LuhnSum(ds) % 10 == 0
  }

  /** The scan of `validateCreditCardNumber`: from the rightmost digit leftwards,
      toggling whether the next digit is doubled. */
  method ValidateCreditCardNumber(number: string) returns (valid: bool)
    ensures valid == IsValidCardNumber(number)
    ensures |Digits(number)| != 16 ==> !valid
  {
    var digits := Digits(number);
    if |digits| != 16 {
      return false;
    }
    var sum := 0;
    var isEven := false;
    var i := |digits| - 1;
    while i >= 0
      invariant -1 <= i < |digits|
      invariant isEven == Doubled(|digits| - 1 - i)
      invariant sum == LuhnSum(digits[i + 1..])
    {
      var digit := DigitValue(digits[i]);
      if isEven {
        digit := digit * 2;
        if digit > 9 {
          digit := digit - 9;
        }
      }
      assert digits[i..][1..] == digits[i + 1..];
      sum := sum + digit;
      isEven := !isEven;
      i := i - 1;
    }
    assert digits[0..] == digits;
    valid := sum % 10 == 0;
  }

  /** The sum as the source describes the scan: start at the rightmost digit with
      doubling off and flip it after every digit. */
  function ScanSum(ds: string, double: bool): int
    requires AllDigits(ds)
  {
    if ds == [] then 0
    else LuhnTerm(ds[|ds| - 1], double) + ScanSum(ds[..|ds| - 1], !double)
  }

  /** Peeling the leftmost digit off the right-to-left scan: it is reached after
      |rest| flips. */
  lemma {:induction false} ScanSumFirst(x: char, rest: string, double: bool)
    requires IsDigit(x) && AllDigits(rest)
    ensures ScanSum([x] + rest, double)
         == LuhnTerm(x, double != Doubled(|rest|)) + ScanSum(rest, double)
  {
    var s := [x] + rest;
    if rest != [] {
      assert s[|s| - 1] == rest[|rest| - 1];
      assert s[..|s| - 1] == [x] + rest[..|rest| - 1];
      ScanSumFirst(x, rest[..|rest| - 1], !double);
    } else {
      assert s[..|s| - 1] == [];
    }
  }

  /** The position-weighted sum is the right-to-left scan with alternating doubling. */
  lemma {:induction false} LuhnSumIsScan(ds: string)
    requires AllDigits(ds)
    ensures LuhnSum(ds) == ScanSum(ds, false)
  {
    if ds != [] {
      LuhnSumIsScan(ds[1..]);
      assert ds == [ds[0]] + ds[1..];
      ScanSumFirst(ds[0], ds[1..], false);
    }
  }

  /** Every digit contributes 0..9, so the sum of a 16-digit number is at most 144. */
  lemma {:induction false} LuhnSumBounds(ds: string)
    requires AllDigits(ds)
    ensures 0 <= LuhnSum(ds) <= 9 * |ds|
  {
    if ds != [] {
      LuhnSumBounds(ds[1..]);
    }
  }

  /** Spaces, dashes and any other non-digit may be typed anywhere. */
  lemma SeparatorIgnored(number: string, k: nat, c: char)
    requires k <= |number| && !IsDigit(c)
    ensures IsValidCardNumber(number[..k] + [c] + number[k..]) == IsValidCardNumber(number)
  {
    var before, after := number[..k], number[k..];
    assert Digits([c]) == [] by {
      assert [c][1..] == [];
    }
    DigitsAppend(before + [c], after);
    DigitsAppend(before, [c]);
    assert before + [c] + after == (before + [c]) + after;
    assert before + after == number;
    DigitsAppend(before, after);
    calc {
      Digits(before + [c] + after);
      Digits(before + [c]) + Digits(after);
      Digits(before) + Digits([c]) + Digits(after);
      Digits(before) + Digits(after);
      Digits(number);
    }
  }

  /** The check reads only the digit subsequence. */
  lemma OnlyDigitsMatter(number: string)
    ensures IsValidCardNumber(number) == IsValidCardNumber(Digits(number))
  {
    DigitsIdempotent(number);
  }

  /** Two digit strings that differ at position `k` only: their sums differ by the
      difference of the two contributions at `k`. */
  lemma {:induction false} LuhnSumDiffAt(a: string, b: string, k: nat)
    requires AllDigits(a) && AllDigits(b) && |a| == |b| && k < |a|
    requires forall j :: 0 <= j < |a| && j != k ==> a[j] == b[j]
    ensures LuhnSum(a) - LuhnSum(b)
         == LuhnTerm(a[k], Doubled(|a| - 1 - k)) - LuhnTerm(b[k], Doubled(|a| - 1 - k))
  {
    if k == 0 {
      assert a[1..] == b[1..];
    } else {
      LuhnSumDiffAt(a[1..], b[1..], k - 1);
    }
  }

  /** Doubling-and-casting-out-nines permutes the ten digits. */
  lemma LuhnTermInjective(x: char, y: char, doubled: bool)
    requires IsDigit(x) && IsDigit(y) && x != y
    ensures LuhnTerm(x, doubled) != LuhnTerm(y, doubled)
  {
  }

  /** Mistyping a single digit of a valid 16-digit number always yields an invalid one. */
  lemma SingleDigitErrorDetected(a: string, b: string, k: nat)
    requires AllDigits(a) && AllDigits(b) && |a| == |b| == 16 && k < 16
    requires a[k] != b[k] && forall j :: 0 <= j < 16 && j != k ==> a[j] == b[j]
    requires IsValidCardNumber(a)
    ensures !IsValidCardNumber(b)
  {
    DigitsOfDigits(a);
    DigitsOfDigits(b);
    LuhnSumDiffAt(a, b, k);
    LuhnTermInjective(a[k], b[k], Doubled(15 - k));
    var d := LuhnSum(a) - LuhnSum(b);
    assert d != 0 && -9 <= d <= 9;
    assert LuhnSum(a) % 10 == 0;
    NotMultipleOfTen(LuhnSum(a), d);
  }

  /** Moving a multiple of ten by less than ten in either direction leaves one. */
  lemma NotMultipleOfTen(x: int, d: int)
    requires x % 10 == 0 && d != 0 && -9 <= d <= 9
    ensures (x - d) % 10 != 0
  {
    var q := x / 10;
    assert x == 10 * q;
    if d > 0 {
      assert 10 * (q - 1) < x - d < 10 * q;
    } else {
      assert 10 * q < x - d < 10 * (q + 1);
    }
  }

  /** Unfolding the checksum over four digits that end an even distance from the right. */
  lemma LuhnSumQuad(s: string, i: nat)
    requires AllDigits(s) && i + 4 <= |s| && (|s| - i) % 2 == 0
    ensures LuhnSum(s[i..]) == LuhnTerm(s[i], true) + LuhnTerm(s[i + 1], false)
                             + LuhnTerm(s[i + 2], true) + LuhnTerm(s[i + 3], false)
                             + LuhnSum(s[i + 4..])
  {
    var n := |s| - i;
    assert Doubled(n - 1) && !Doubled(n - 2) && Doubled(n - 3) && !Doubled(n - 4);
    assert LuhnSum(s[i..]) == LuhnTerm(s[i], true) + LuhnSum(s[i + 1..]) by {
      assert s[i..][0] == s[i] && s[i..][1..] == s[i + 1..];
    }
    assert LuhnSum(s[i + 1..]) == LuhnTerm(s[i + 1], false) + LuhnSum(s[i + 2..]) by {
      assert s[i + 1..][0] == s[i + 1] && s[i + 1..][1..] == s[i + 2..];
    }
    assert LuhnSum(s[i + 2..]) == LuhnTerm(s[i + 2], true) + LuhnSum(s[i + 3..]) by {
      assert s[i + 2..][0] == s[i + 2] && s[i + 2..][1..] == s[i + 3..];
    }
    assert LuhnSum(s[i + 3..]) == LuhnTerm(s[i + 3], false) + LuhnSum(s[i + 4..]) by {
      assert s[i + 3..][0] == s[i + 3] && s[i + 3..][1..] == s[i + 4..];
    }
  }

  /** The reference number 4539 1488 0343 6467: checksum 80, accepted. */
  lemma ReferenceNumberValid(s: string)
    requires |s| == 16
             && s[0] == '4' && s[1] == '5' && s[2] == '3' && s[3] == '9' && s[4] == '1'
             && s[5] == '4' && s[6] == '8' && s[7] == '8' && s[8] == '0' && s[9] == '3'
             && s[10] == '4' && s[11] == '3' && s[12] == '6' && s[13] == '4' && s[14] == '6'
             && s[15] == '7'
    ensures LuhnSum(s) == 80 && IsValidCardNumber(s)
  {
    assert AllDigits(s);
    assert s[16..] == [] && s[0..] == s;
    LuhnSumQuad(s, 12);
    assert LuhnSum(s[12..]) == 17;
    LuhnSumQuad(s, 8);
    assert LuhnSum(s[8..]) == 31;
    LuhnSumQuad(s, 4);
    assert LuhnSum(s[4..]) == 52;
    LuhnSumQuad(s, 0);
    DigitsOfDigits(s);
  }

  /** The same number with its check digit raised by one: checksum 81, rejected. */
  lemma ReferenceNumberInvalid(s: string)
    requires |s| == 16
             && s[0] == '4' && s[1] == '5' && s[2] == '3' && s[3] == '9' && s[4] == '1'
             && s[5] == '4' && s[6] == '8' && s[7] == '8' && s[8] == '0' && s[9] == '3'
             && s[10] == '4' && s[11] == '3' && s[12] == '6' && s[13] == '4' && s[14] == '6'
             && s[15] == '8'
    ensures LuhnSum(s) == 81 && !IsValidCardNumber(s)
  {
    assert AllDigits(s);
    assert s[16..] == [] && s[0..] == s;
    LuhnSumQuad(s, 12);
    assert LuhnSum(s[12..]) == 18;
    LuhnSumQuad(s, 8);
    assert LuhnSum(s[8..]) == 32;
    LuhnSumQuad(s, 4);
    assert LuhnSum(s[4..]) == 53;
    LuhnSumQuad(s, 0);
    DigitsOfDigits(s);
  }

  // ----------------------------------------------------------------- expiry

  /** `validateExpiryDate` against the clock reading `new Date()` would give: the
      full year and the zero-based month index. The text is split at '/', the first
      two fields go through `parseInt`, and a part that is missing, not a number or
      zero rejects outright. */
  function ValidateExpiryDate(expiry: string, fullYear: nat, monthIndex: nat): bool
    requires monthIndex < 12
  {
    var fields := Split(expiry, '/');
    var month := ParseInt(fields[0]);
    var year := if |fields| > 1 then ParseInt(fields[1]) else None;
    AcceptsParts(month, year, fullYear, monthIndex)
  }

  /** The decision on the parsed month and year: a part that is missing, not a
      number or zero rejects; otherwise the month must be 1..12 and the date not
      before the current month of the current two-digit year. */
  predicate AcceptsParts(month: Option<int>, year: Option<int>, fullYear: nat, monthIndex: nat)
    requires monthIndex < 12
  {
    if month.None? || month.value == 0 || year.None? || year.value == 0 then false
    else
      var currentYear := fullYear % 100;
      var currentMonth := monthIndex + 1;
      var m, y := month.value, year.value;
      1 <= m <= 12 && y >= currentYear && (y > currentYear || m >= currentMonth)
  }

  /** For "MM/YY" typed as digits: valid iff the month is 1..12, the year is not 00
      and not in the past, and in the current year the month has not passed. */
  lemma ExpiryOfDigits(mm: string, yy: string, fullYear: nat, monthIndex: nat)
    requires monthIndex < 12
    requires mm != [] && yy != [] && AllDigits(mm) && AllDigits(yy)
    ensures ValidateExpiryDate(mm + "/" + yy, fullYear, monthIndex)
        <==> (var m, y, cy := Number(mm), Number(yy), fullYear % 100;
              1 <= m <= 12 && y != 0 && y >= cy && (y > cy || m >= monthIndex + 1))
  {
    var expiry := mm + "/" + yy;
    assert ValidateExpiryDate(expiry, fullYear, monthIndex)
        == AcceptsParts(Some(Number(mm)), Some(Number(yy)), fullYear, monthIndex) by {
      assert Split(expiry, '/') == [mm, yy] by {
        assert expiry == mm + ['/'] + yy;
        SplitAtSeparator(mm, '/', yy);
        SplitNoSeparator(yy, '/');
      }
      ParseIntOfDigits(mm);
      ParseIntOfDigits(yy);
    }
  }

  /** Text without a '/' has no year part and is rejected. */
  lemma ExpiryWithoutSlashRejected(expiry: string, fullYear: nat, monthIndex: nat)
    requires monthIndex < 12
    requires forall i :: 0 <= i < |expiry| ==> expiry[i] != '/'
    ensures !ValidateExpiryDate(expiry, fullYear, monthIndex)
  {
    SplitNoSeparator(expiry, '/');
  }

  /** A month or a year that reads as zero ("00/30", "12/00") is rejected whatever the date. */
  lemma ZeroPartsRejected(mm: string, yy: string, fullYear: nat, monthIndex: nat)
    requires monthIndex < 12
    requires mm != [] && yy != [] && AllDigits(mm) && AllDigits(yy)
    requires Number(mm) == 0 || Number(yy) == 0
    ensures !ValidateExpiryDate(mm + "/" + yy, fullYear, monthIndex)
  {
    ExpiryOfDigits(mm, yy, fullYear, monthIndex);
  }
}
