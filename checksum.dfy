/** The weighted 7-3-1 check-digit arithmetic of ICAO Doc 9303 Part 3,
    section 4.9, as MrzValidator implements it: the character table, the
    weighted sum with a phase offset, and the single-field check. */
module Checksum {
  import opened MrzTypes

  /** The characters the table maps to their position: digits, then A to Z. */
  const CHARSET: string := "0123456789ABCDEFGHIJKLMNOPQRSTUVWXYZ"

  /** The cyclic weights. */
  const WEIGHTS: seq<int> := [7, 3, 1]

  /** The value MappedSumValues gives a character; None where the dictionary
      has no entry (its lookup would throw). */
  function CharValue(ch: char): (r: Option<int>)
    ensures r.Some? ==> 0 <= r.value < |CHARSET|
    ensures r == Some(0) <==> ch in "0< ,"
  {
    if '0' <= ch <= '9' then Some(ch as int - '0' as int)
    else if 'A' <= ch <= 'Z' then Some(ch as int - 'A' as int + 10)
    else if ch == '<' || ch == ' ' || ch == ',' then Some(0)
    else None
  }

  /** char.GetNumericValue restricted to ASCII: a decimal digit gives its
      value, every other character -1. */
  function NumericValue(ch: char): (r: int)
    ensures -1 <= r <= 9
    ensures r == -1 <==> !('0' <= ch <= '9')
    ensures r >= 0 ==> CharValue(ch) == Some(r)
  {
    if '0' <= ch <= '9' then ch as int - '0' as int else -1
  }

  /** Every character of `s` has an entry in the table. */
  predicate AllMapped(s: string) {
    forall i :: 0 <= i < |s| ==> CharValue(s[i]).Some?
  }

  /** The weight of global position `k`. */
  function Weight(k: nat): int {
    WEIGHTS[k % 3]
  }

  /** The reference checksum: sum of value(s[i]) * Weight(k + i). */
  function WeightedSum(s: string, k: nat): int
    requires AllMapped(s)
    decreases |s|
  {
    if s == [] then 0 else CharValue(s[0]).value * Weight(k) + WeightedSum(s[1..], k + 1)
  }

  /** The field-level check as the source performs it, without the throw:
      a one-character check string whose numeric value is the sum mod 10. */
  predicate CheckDigitMatches(value: string, check: string) {
    && |check| == 1
    && AllMapped(value)
    && WeightedSum(value, 0) % 10 == NumericValue(check[0])
  }

  // ---------------------------------------------------------------------
  // The table built by the static constructor

  /** The character at position i of CHARSET, spelled arithmetically. */
  function CharsetAt(i: int): char
    requires 0 <= i < 36
  {
    if i < 10 then ('0' as int + i) as char else ('A' as int + i - 10) as char
  }

  lemma CharsetSpelled()
    ensures |CHARSET| == 36
    ensures forall i :: 0 <= i < |CHARSET| ==> CHARSET[i] == CharsetAt(i)
  {
    var digits, upper := "0123456789", "ABCDEFGHIJKLMNOPQRSTUVWXYZ";
    assert CHARSET == digits + upper;
    assert forall i :: 0 <= i < 10 ==> digits[i] == CharsetAt(i);
    assert forall i :: 0 <= i < 26 ==> upper[i] == CharsetAt(i + 10);
  }

  /** CHARSET lists the table's characters in value order. */
  lemma CharsetPositions()
    ensures forall i :: 0 <= i < |CHARSET| ==> CharValue(CHARSET[i]) == Some(i) && IsCharsetChar(CHARSET[i])
  {
    CharsetSpelled();
    forall i | 0 <= i < |CHARSET| ensures CharValue(CHARSET[i]) == Some(i) && IsCharsetChar(CHARSET[i]) {
      assert CHARSET[i] == CharsetAt(i);
    }
  }

  /** Every character of CHARSET sits at the position of its value. */
  lemma CharsetCovers()
    ensures forall ch :: IsCharsetChar(ch) ==> CHARSET[CharValue(ch).value] == ch
  {
    CharsetSpelled();
    forall ch | IsCharsetChar(ch) ensures CHARSET[CharValue(ch).value] == ch {
      assert CHARSET[CharValue(ch).value] == CharsetAt(CharValue(ch).value);
    }
  }

  /** The table has an entry exactly for the characters of CHARSET and the
      three separators '<', ' ' and ','; any other character, a lower-case
      letter for one, is missing and its lookup throws. */
  lemma CharValueDomain(ch: char)
    ensures CharValue(ch).Some? <==> ch in CHARSET || ch in "< ,"
  {
    CharsetPositions();
    CharsetCovers();
    if ch in CHARSET {
      var i :| 0 <= i < |CHARSET| && CHARSET[i] == ch;
    }
    if CharValue(ch).Some? && ch !in "< ," {
      assert IsCharsetChar(ch);
      assert CHARSET[CharValue(ch).value] == ch;
    }
  }

  /** The static constructor: every CHARSET character is mapped to its index,
      then '<', ' ' and ',' to 0. The dictionary it builds is exactly the
      graph of CharValue. */
  method BuildMappedSumValues() returns (table: map<char, int>)
    ensures forall ch :: ch in table <==> CharValue(ch).Some?
    ensures forall ch :: ch in table ==> Some(table[ch]) == CharValue(ch)
  {
    CharsetPositions();
    CharsetCovers();
    table := map[];
    for i := 0 to |CHARSET|
      invariant forall ch :: ch in table <==> IsCharsetChar(ch) && CharValue(ch).value < i
      invariant forall ch :: ch in table ==> Some(table[ch]) == CharValue(ch)
    {
      var c := CHARSET[i];
      assert CharValue(c) == Some(i) && IsCharsetChar(c);
      forall ch | IsCharsetChar(ch) && CharValue(ch).value == i ensures ch == c {
        assert CHARSET[CharValue(ch).value] == ch;
      }
      table := table[c := i];
    }
    table := table['<' := 0][' ' := 0][',' := 0];
  }

  /** A character listed in CHARSET, as opposed to the three zero-valued
      separators added after the loop. */
  predicate IsCharsetChar(ch: char) {
    CharValue(ch).Some? && ch != '<' && ch != ' ' && ch != ','
  }

  // ---------------------------------------------------------------------
  // CalculateSum

  /** CalculateSum(field, startWeight): walks the field with the position
      counter j starting at startWeight; an unmapped character makes the
      dictionary lookup throw. */
  method CalculateSum(field: string, startWeight: nat) returns (r: Result<int>)
    ensures r.Ok? <==> AllMapped(field)
    ensures r.Ok? ==> r.value == WeightedSum(field, startWeight)
    ensures r.Err? ==> r.error.KeyNotFound? && r.error.ch in field && CharValue(r.error.ch).None?
  {
    var sum := 0;
    var i, j := 0, startWeight;
    while i < |field|
      invariant 0 <= i <= |field| && j == startWeight + i
      invariant AllMapped(field[..i])
      invariant sum == WeightedSum(field[..i], startWeight)
    {
      var v := CharValue(field[i]);
      if v.None? {
        return Err(KeyNotFound(field[i]));
      }
      SumSplit(field[..i], [field[i]], startWeight);
      assert field[..i + 1] == field[..i] + [field[i]];
      sum := sum + v.value * WEIGHTS[j % 3];
      i, j := i + 1, j + 1;
    }
    assert field[..i] == field;
    r := Ok(sum);
  }

  /** IsFieldValid(fieldValue, checkSum): false for a check string that is not
      one character; otherwise the sum mod 10 against the numeric value
      (-1 for a non-digit, which no remainder equals). Throws only when the
      sum is computed over an unmapped character. */
  method IsFieldValid(fieldValue: string, checkSum: string) returns (r: Result<bool>)
    ensures r.Err? <==> |checkSum| == 1 && !AllMapped(fieldValue)
    ensures r == Ok(true) <==> CheckDigitMatches(fieldValue, checkSum)
    ensures r == Ok(true) ==> '0' <= checkSum[0] <= '9'
  {
    if |checkSum| != 1 {
      return Ok(false);
    }
    var checkSumNumber := NumericValue(checkSum[0]);
    var calculatedCheckSum :- CalculateSum(fieldValue, 0);
    return Ok(calculatedCheckSum % 10 == checkSumNumber);
  }

  // ---------------------------------------------------------------------
  // Properties of the weighted sum

  /** Summing a concatenation splits into the two parts, the second keeping
      its phase through the offset |a|. */
  lemma {:induction false} SumSplit(a: string, b: string, k: nat)
    requires AllMapped(a) && AllMapped(b)
    ensures AllMapped(a + b)
    ensures WeightedSum(a + b, k) == WeightedSum(a, k) + WeightedSum(b, k + |a|)
  {
    if a == [] {
      assert a + b == b;
    } else {
      assert (a + b)[1..] == a[1..] + b;
      SumSplit(a[1..], b, k + 1);
    }
  }

  /** A concatenation is summable exactly when both parts are. */
  lemma AllMappedConcat(a: string, b: string)
    ensures AllMapped(a + b) <==> AllMapped(a) && AllMapped(b)
  {
    if AllMapped(a + b) {
      forall i | 0 <= i < |a| ensures CharValue(a[i]).Some? {
        assert a[i] == (a + b)[i];
      }
      forall i | 0 <= i < |b| ensures CharValue(b[i]).Some? {
        assert b[i] == (a + b)[|a| + i];
      }
    }
  }

  lemma {:induction false} SumNonNegative(s: string, k: nat)
    requires AllMapped(s)
    ensures WeightedSum(s, k) >= 0
  {
    if s != [] {
      SumNonNegative(s[1..], k + 1);
    }
  }

  /** A run of filler characters sums to 0, whatever its length and phase. */
  lemma {:induction false} FillerSumIsZero(s: string, k: nat)
    requires forall i :: 0 <= i < |s| ==> s[i] == '<'
    ensures AllMapped(s) && WeightedSum(s, k) == 0
  {
    if s != [] {
      FillerSumIsZero(s[1..], k + 1);
    }
  }

  /** Only the phase of the offset matters. */
  lemma {:induction false} SumPhase(s: string, k: nat)
    requires AllMapped(s)
    ensures WeightedSum(s, k) == WeightedSum(s, k % 3)
  {
    if s != [] {
      SumPhase(s[1..], k + 1);
      SumPhase(s[1..], k % 3 + 1);
      assert (k + 1) % 3 == (k % 3 + 1) % 3;
    }
  }

  lemma SumOfOne(x: char, k: nat)
    requires CharValue(x).Some?
    ensures AllMapped([x]) && WeightedSum([x], k) == CharValue(x).value * Weight(k)
  {
    assert [x][1..] == [];
  }

  /** Replacing one character changes the sum by the value difference times
      that position's weight. */
  lemma SumSubstitution(a: string, x: char, y: char, b: string, k: nat)
    requires AllMapped(a) && AllMapped(b) && CharValue(x).Some? && CharValue(y).Some?
    ensures AllMapped(a + [x] + b) && AllMapped(a + [y] + b)
    ensures WeightedSum(a + [x] + b, k) - WeightedSum(a + [y] + b, k)
         == (CharValue(x).value - CharValue(y).value) * Weight(k + |a|)
  {
    SumOfOne(x, k + |a|);
    SumOfOne(y, k + |a|);
    SumSplit(a, [x], k);
    SumSplit(a + [x], b, k);
    SumSplit(a, [y], k);
    SumSplit(a + [y], b, k);
    var w := Weight(k + |a|);
    var vx, vy := CharValue(x).value, CharValue(y).value;
    assert WeightedSum(a + [x] + b, k) - WeightedSum(a + [y] + b, k) == vx * w - vy * w;
    assert vx * w - vy * w == (vx - vy) * w by {
      MulSubDistributes(vx, vy, w);
    }
  }

  lemma MulSubDistributes(x: int, y: int, w: int)
    ensures x * w - y * w == (x - y) * w
  {
  }

  /** A non-zero digit difference times a weight is never a multiple of 10. */
  lemma WeightedDifferenceNotMultipleOfTen(d: int, w: int)
    requires -9 <= d <= 9 && d != 0
    requires w == 7 || w == 3 || w == 1
    ensures (d * w) % 10 != 0
  {
    if w == 1 {
    } else if w == 3 {
      assert d * w == 3 * d;
    } else {
      assert d * w == 7 * d;
    }
  }

  /** The 7-3-1 scheme detects every single-digit substitution: the weights
      are coprime to 10 and two digits differ by less than 10. */
  lemma DigitSubstitutionDetected(a: string, x: char, y: char, b: string, k: nat)
    requires AllMapped(a) && AllMapped(b)
    requires '0' <= x <= '9' && '0' <= y <= '9' && x != y
    ensures AllMapped(a + [x] + b) && AllMapped(a + [y] + b)
    ensures WeightedSum(a + [x] + b, k) % 10 != WeightedSum(a + [y] + b, k) % 10
  {
    SumSubstitution(a, x, y, b, k);
    var d := CharValue(x).value - CharValue(y).value;
    var w := Weight(k + |a|);
    WeightedDifferenceNotMultipleOfTen(d, w);
    var sx, sy := WeightedSum(a + [x] + b, k), WeightedSum(a + [y] + b, k);
    RemaindersDiffer(sx, sy, d * w);
  }

  lemma RemaindersDiffer(x: int, y: int, diff: int)
    requires x - y == diff && diff % 10 != 0
    ensures x % 10 != y % 10
  {
  }

  /** Exactly one decimal digit is a valid check digit for a mapped value. */
  lemma CheckDigitIsUnique(value: string, c1: char, c2: char)
    requires CheckDigitMatches(value, [c1]) && CheckDigitMatches(value, [c2])
    ensures c1 == c2
  {
  }

  lemma CheckDigitExists(value: string)
    requires AllMapped(value)
    ensures var c := ('0' as int + WeightedSum(value, 0) % 10) as char;
      '0' <= c <= '9' && CheckDigitMatches(value, [c])
  {
  }

  // ---------------------------------------------------------------------
  // The ICAO specimen passport

  /** One full period of the 7-3-1 weights over three mapped characters. */
  lemma SumOfThree(a: char, b: char, c: char, k: nat)
    requires k % 3 == 0
    requires CharValue(a).Some? && CharValue(b).Some? && CharValue(c).Some?
    ensures AllMapped([a, b, c])
    ensures WeightedSum([a, b, c], k) == 7 * CharValue(a).value + 3 * CharValue(b).value + CharValue(c).value
  {
    assert Weight(k) == 7 && Weight(k + 1) == 3 && Weight(k + 2) == 1;
    assert [a, b, c][1..] == [b, c];
    assert [b, c][1..] == [c];
    assert [c][1..] == [];
    assert WeightedSum([c], k + 2) == CharValue(c).value;
    assert WeightedSum([b, c], k + 1) == 3 * CharValue(b).value + WeightedSum([c], k + 2);
  }

  /** The document number of the ICAO specimen passport, L898902C3, sums to
      316 and so takes the check digit 6 and no other. */
  lemma SpecimenDocumentNumber(number: string)
    requires number == "L898902C3"
    ensures CheckDigitMatches(number, "6") && !CheckDigitMatches(number, "5")
  {
    var x, y, z := number[..3], number[3..6], number[6..];
    assert number == x + y + z;
    assert x == ['L', '8', '9'] && y == ['8', '9', '0'] && z == ['2', 'C', '3'];
    SumOfThree('L', '8', '9', 0);
    SumOfThree('8', '9', '0', 3);
    SumOfThree('2', 'C', '3', 6);
    SumSplit(x, y, 0);
    SumSplit(x + y, z, 0);
    assert WeightedSum(number, 0) == 316;
  }

  /** The specimen's date of birth, 740812, sums to 122: check digit 2. */
  lemma SpecimenBirthDate(date: string)
    requires date == "740812"
    ensures CheckDigitMatches(date, "2") && !CheckDigitMatches(date, "3")
  {
    var x, y := date[..3], date[3..];
    assert date == x + y;
    assert x == ['7', '4', '0'] && y == ['8', '1', '2'];
    SumOfThree('7', '4', '0', 0);
    SumOfThree('8', '1', '2', 3);
    SumSplit(x, y, 0);
    assert WeightedSum(date, 0) == 122;
  }

  /** The specimen's date of expiry, 120415, sums to 49: check digit 9. */
  lemma SpecimenExpiryDate(date: string)
    requires date == "120415"
    ensures CheckDigitMatches(date, "9") && !CheckDigitMatches(date, "0")
  {
    var x, y := date[..3], date[3..];
    assert date == x + y;
    assert x == ['1', '2', '0'] && y == ['4', '1', '5'];
    SumOfThree('1', '2', '0', 0);
    SumOfThree('4', '1', '5', 3);
    SumSplit(x, y, 0);
    assert WeightedSum(date, 0) == 49;
  }
}
