/** Check-digit validation of a parsed code, per layout: the field-level
    checks, the composite check digit over the layout's slices, the TD2
    exemption for Moldovan cards without an expiry date, and the fail-closed
    collapse of every internal failure to false. */
module MrzValidator {
  import opened MrzTypes
  import opened MrzLines
  import opened Checksum
  import MrzCode
  import TD1BangladeshFirstLine

  // ---------------------------------------------------------------------
  // What the validator reads of a code

  /** The validator sees a code only through its public type, its Lines
      property and its indexer; every read of the indexer gives the same
      result for the same identifier. */
  datatype View = View(codeType: CodeType, lines: Result<seq<MrzLine>>, get: FieldType -> Result<string>)

  function ViewOf(code: MrzCode.Code, c: Collaborators): View {
    View(MrzCode.TypeOf(code.cls), MrzCode.Lines(code, c), t => MrzCode.Get(code, c, t))
  }

  // ---------------------------------------------------------------------
  // The reference definition of validity

  /** One field-level check passes: both lookups succeed and the check digit
      matches the field's value. */
  predicate FieldCheckPasses(v: View, field: FieldType, checkDigit: FieldType) {
    && v.get(field).Ok? && v.get(checkDigit).Ok?
    && CheckDigitMatches(v.get(field).value, v.get(checkDigit).value)
  }

  /** The three checks every layout performs. */
  predicate CoreFieldChecksPass(v: View) {
    && FieldCheckPasses(v, DocumentNumber, DocumentNumberCheckDigit)
    && FieldCheckPasses(v, BirthDate, BirthDateCheckDigit)
    && FieldCheckPasses(v, ExpiryDate, ExpiryDateCheckDigit)
  }

  /** The overall check digit has a first character and the composite text
      is summable: the composite computation does not throw. */
  predicate CompositeDefined(composite: string, v: View) {
    && v.get(OverallCheckDigit).Ok? && |v.get(OverallCheckDigit).value| >= 1
    && AllMapped(composite)
  }

  /** The composite text sums, from phase 0, to the overall check digit. */
  predicate CompositeMatches(composite: string, v: View) {
    && CompositeDefined(composite, v)
    && WeightedSum(composite, 0) % 10 == NumericValue(v.get(OverallCheckDigit).value[0])
  }

  /** The TD1 composite text: line 1 from position 5, then the birth date,
      expiry date and optional data of line 2 with their check digits. */
  function TD1Composite(upper: string, middle: string): string
    requires |upper| >= 30 && |middle| >= 29
  {
    upper[5..30] + middle[..7] + middle[8..15] + middle[18..29]
  }

  /** The TD2 and TD3 composite text of the lower line, up to `end`. */
  function LowerLineComposite(lower: string, end: nat): string
    requires 21 <= end <= |lower|
  {
    lower[..10] + lower[13..20] + lower[21..end]
  }

  predicate TD1Valid(v: View) {
    && CoreFieldChecksPass(v)
    && v.lines.Ok? && |v.lines.value| >= 2
    && |v.lines.value[0].value| >= 30 && |v.lines.value[1].value| >= 29
    && CompositeMatches(TD1Composite(v.lines.value[0].value, v.lines.value[1].value), v)
  }

  /** The Moldovan exemption: country MDA and an empty expiry date. */
  predicate MdaExempt(v: View) {
    && v.get(CountryCode) == Ok("MDA")
    && v.get(ExpiryDate) == Ok("")
  }

  /** The last line, when the Lines property gives at least one. */
  function LastLine(v: View): string
    requires v.lines.Ok? && |v.lines.value| >= 1
  {
    v.lines.value[|v.lines.value| - 1].value
  }

  predicate TD2Valid(v: View) {
    && CoreFieldChecksPass(v)
    && v.lines.Ok? && |v.lines.value| >= 1
    && |LastLine(v)| >= 35
    && CompositeDefined(LowerLineComposite(LastLine(v), 35), v)
    && v.get(CountryCode).Ok?
    && (MdaExempt(v) || CompositeMatches(LowerLineComposite(LastLine(v), 35), v))
  }

  predicate TD3Valid(v: View) {
    && CoreFieldChecksPass(v)
    && FieldCheckPasses(v, OptionalData, OptionalDataCheckDigit)
    && v.lines.Ok? && |v.lines.value| >= 1
    && |LastLine(v)| >= 43
    && CompositeMatches(LowerLineComposite(LastLine(v), 43), v)
  }

  /** Validity by public type; an unknown code is never valid. */
  predicate IsValid(v: View) {
    match v.codeType
    case TD1 => TD1Valid(v)
    case TD2 => TD2Valid(v)
    case TD3 => TD3Valid(v)
    case MRVA => CoreFieldChecksPass(v)
    case MRVB => CoreFieldChecksPass(v)
    case UNKNOWN => false
  }

  // ---------------------------------------------------------------------
  // The composites summed slice by slice

  /** The TD1 composite summed slice by slice at offsets 0, 25, 32 and 39:
      each offset is the running length of the slices before it. */
  lemma TD1CompositeOffsets(upper: string, middle: string)
    requires |upper| >= 30 && |middle| >= 29
    ensures var a, b, d, e := upper[5..30], middle[..7], middle[8..15], middle[18..29];
      && (AllMapped(TD1Composite(upper, middle)) <==> AllMapped(a) && AllMapped(b) && AllMapped(d) && AllMapped(e))
      && (AllMapped(TD1Composite(upper, middle)) ==>
            WeightedSum(TD1Composite(upper, middle), 0)
            == WeightedSum(a, 0) + WeightedSum(b, 25) + WeightedSum(d, 32) + WeightedSum(e, 39))
  {
    var a, b, d, e := upper[5..30], middle[..7], middle[8..15], middle[18..29];
    assert TD1Composite(upper, middle) == a + b + d + e;
    AllMappedConcat(a, b);
    AllMappedConcat(a + b, d);
    AllMappedConcat(a + b + d, e);
    if AllMapped(a + b + d + e) {
      SumSplit(a, b, 0);
      SumSplit(a + b, d, 0);
      SumSplit(a + b + d, e, 0);
    }
  }

  /** The composite the source's offsets amount to: the ICAO composite
      with four filler characters before line 2's optional data. */
  function TD1CompositeAsWritten(upper: string, middle: string): string
    requires |upper| >= 30 && |middle| >= 29
  {
    upper[5..30] + middle[..7] + middle[8..15] + "<<<<" + middle[18..29]
  }

  /** The TD1 composite sum as the source writes it: the last slice, the
      optional data of line 2, starts at weight index 43 although only 39
      characters precede it. That is the contiguous sum of a composite
      padded with four fillers, which weigh nothing but shift the phase. */
  function TD1CompositeSumAsWritten(upper: string, middle: string): (r: int)
    requires |upper| >= 30 && |middle| >= 29
    requires AllMapped(TD1Composite(upper, middle))
    ensures AllMapped(TD1CompositeAsWritten(upper, middle))
    ensures r == WeightedSum(TD1CompositeAsWritten(upper, middle), 0)
  {
    TD1CompositeOffsets(upper, middle);
    TD1PaddedOffsets(upper, middle);
    WeightedSum(upper[5..30], 0) + WeightedSum(middle[..7], 25)
      + WeightedSum(middle[8..15], 32) + WeightedSum(middle[18..29], 43)
  }

  lemma TD1PaddedOffsets(upper: string, middle: string)
    requires |upper| >= 30 && |middle| >= 29
    requires AllMapped(TD1Composite(upper, middle))
    ensures AllMapped(TD1CompositeAsWritten(upper, middle))
    ensures AllMapped(upper[5..30]) && AllMapped(middle[..7]) && AllMapped(middle[8..15]) && AllMapped(middle[18..29])
    ensures WeightedSum(TD1CompositeAsWritten(upper, middle), 0)
      == WeightedSum(upper[5..30], 0) + WeightedSum(middle[..7], 25)
         + WeightedSum(middle[8..15], 32) + WeightedSum(middle[18..29], 43)
  {
    TD1CompositeOffsets(upper, middle);
    var a, b, d, f, e := upper[5..30], middle[..7], middle[8..15], "<<<<", middle[18..29];
    assert TD1CompositeAsWritten(upper, middle) == a + b + d + f + e;
    FillerSumIsZero(f, 39);
    AllMappedConcat(a, b);
    AllMappedConcat(a + b, d);
    AllMappedConcat(a + b + d, f);
    AllMappedConcat(a + b + d + f, e);
    SumSplit(a, b, 0);
    SumSplit(a + b, d, 0);
    SumSplit(a + b + d, f, 0);
    SumSplit(a + b + d + f, e, 0);
  }

  /** The written offset shifts the optional data's weights by one phase:
      the written sum is the contiguous sum with that slice re-weighted. */
  lemma TD1AsWrittenShiftsOptionalData(upper: string, middle: string)
    requires |upper| >= 30 && |middle| >= 29
    requires AllMapped(TD1Composite(upper, middle))
    ensures AllMapped(middle[18..29])
    ensures TD1CompositeSumAsWritten(upper, middle)
      == WeightedSum(TD1Composite(upper, middle), 0) - WeightedSum(middle[18..29], 0) + WeightedSum(middle[18..29], 1)
  {
    TD1CompositeOffsets(upper, middle);
    var e := middle[18..29];
    SumPhase(e, 39);
    SumPhase(e, 43);
  }

  /** When the optional data of line 2 is all filler, as on most cards, the
      written offset does no harm. */
  lemma TD1AsWrittenAgreesOnFiller(upper: string, middle: string)
    requires |upper| >= 30 && |middle| >= 29
    requires AllMapped(TD1Composite(upper, middle))
    requires forall i :: 18 <= i < 29 ==> middle[i] == '<'
    ensures TD1CompositeSumAsWritten(upper, middle) == WeightedSum(TD1Composite(upper, middle), 0)
  {
    TD1AsWrittenShiftsOptionalData(upper, middle);
    FillerSumIsZero(middle[18..29], 0);
    FillerSumIsZero(middle[18..29], 1);
  }

  /** Optional data "1" followed by filler: the written sum and the ICAO
      composite sum differ modulo 10, so the source rejects the card whose
      composite check digit is right and accepts one whose digit is wrong. */
  lemma TD1AsWrittenMisweighsOptionalData(upper: string, middle: string)
    requires |upper| >= 30 && |middle| >= 29
    requires AllMapped(TD1Composite(upper, middle))
    requires middle[18..29] == "1<<<<<<<<<<"
    ensures TD1CompositeSumAsWritten(upper, middle) % 10 != WeightedSum(TD1Composite(upper, middle), 0) % 10
  {
    TD1AsWrittenShiftsOptionalData(upper, middle);
    var e := middle[18..29];
    var tail := e[1..];
    FillerSumIsZero(tail, 1);
    FillerSumIsZero(tail, 2);
    assert WeightedSum(e, 0) == 7;
    assert WeightedSum(e, 1) == 3;
  }

  /** TD1 validity as the source computes it: TD1Valid with the composite
      summed by TD1CompositeSumAsWritten. */
  predicate TD1ValidAsWritten(v: View): (b: bool)
    ensures b <==> (
      && CoreFieldChecksPass(v)
      && v.lines.Ok? && |v.lines.value| >= 2
      && |v.lines.value[0].value| >= 30 && |v.lines.value[1].value| >= 29
      && AllMapped(TD1Composite(v.lines.value[0].value, v.lines.value[1].value))
      && CompositeMatches(TD1CompositeAsWritten(v.lines.value[0].value, v.lines.value[1].value), v))
  {
    && CoreFieldChecksPass(v)
    && v.lines.Ok? && |v.lines.value| >= 2
    && |v.lines.value[0].value| >= 30 && |v.lines.value[1].value| >= 29
    && CompositeDefined(TD1Composite(v.lines.value[0].value, v.lines.value[1].value), v)
    && TD1CompositeSumAsWritten(v.lines.value[0].value, v.lines.value[1].value) % 10
       == NumericValue(v.get(OverallCheckDigit).value[0])
  }

  /** On a card whose line-2 optional data is all filler the source's
      verdict and the ICAO verdict coincide. */
  lemma TD1AsWrittenAgreesOnFillerCards(v: View)
    requires v.lines.Ok? && |v.lines.value| >= 2
    requires |v.lines.value[0].value| >= 30 && |v.lines.value[1].value| >= 29
    requires forall i :: 18 <= i < 29 ==> v.lines.value[1].value[i] == '<'
    ensures TD1ValidAsWritten(v) <==> TD1Valid(v)
  {
    var upper, middle := v.lines.value[0].value, v.lines.value[1].value;
    if AllMapped(TD1Composite(upper, middle)) {
      TD1AsWrittenAgreesOnFiller(upper, middle);
    }
  }

  /** On a card whose line-2 optional data is "1" followed by filler, such
      as line 2 7408122F1204159UTO1<<<<<<<<<<, the source's verdict and the
      ICAO verdict are never both "valid": the source rejects every card
      whose composite check digit is right. */
  lemma TD1AsWrittenDisagreesOnOptionalData(v: View)
    requires v.lines.Ok? && |v.lines.value| >= 2
    requires |v.lines.value[0].value| >= 30 && |v.lines.value[1].value| >= 29
    requires v.lines.value[1].value[18..29] == "1<<<<<<<<<<"
    ensures TD1Valid(v) ==> !TD1ValidAsWritten(v)
  {
    var upper, middle := v.lines.value[0].value, v.lines.value[1].value;
    if AllMapped(TD1Composite(upper, middle)) {
      TD1AsWrittenMisweighsOptionalData(upper, middle);
    }
  }

  /** The concrete case: line 2 of a TD1 card reading
      7408122F1204159UTO1<<<<<<<<<<. */
  lemma TD1AsWrittenDisagreesOnSampleLine(v: View)
    requires v.lines.Ok? && |v.lines.value| >= 2 && |v.lines.value[0].value| >= 30
    requires v.lines.value[1].value == "7408122F1204159UTO1<<<<<<<<<<"
    ensures TD1Valid(v) ==> !TD1ValidAsWritten(v)
  {
    assert v.lines.value[1].value[18..29] == "1<<<<<<<<<<";
    TD1AsWrittenDisagreesOnOptionalData(v);
  }

  /** The lower-line composite summed slice by slice at offsets 0, 10, 17. */
  lemma LowerLineCompositeOffsets(lower: string, end: nat)
    requires 21 <= end <= |lower|
    ensures var a, b, d := lower[..10], lower[13..20], lower[21..end];
      && (AllMapped(LowerLineComposite(lower, end)) <==> AllMapped(a) && AllMapped(b) && AllMapped(d))
      && (AllMapped(LowerLineComposite(lower, end)) ==>
            WeightedSum(LowerLineComposite(lower, end), 0)
            == WeightedSum(a, 0) + WeightedSum(b, 10) + WeightedSum(d, 17))
  {
    var a, b, d := lower[..10], lower[13..20], lower[21..end];
    AllMappedConcat(a, b);
    AllMappedConcat(a + b, d);
    if AllMapped(a + b + d) {
      SumSplit(a, b, 0);
      SumSplit(a + b, d, 0);
    }
  }


  // ---------------------------------------------------------------------
  // The validator

  /** IsFieldValid(mrz[field], mrz[checkDigit]). */
  method CheckField(v: View, field: FieldType, checkDigit: FieldType) returns (r: Result<bool>)
    ensures r == Ok(true) <==> FieldCheckPasses(v, field, checkDigit)
  {
    var value :- v.get(field);
    var check :- v.get(checkDigit);
    r := IsFieldValid(value, check);
  }

  /** CalculateSum(line[lo..hi], startWeight); the range throws on a line
      shorter than hi. */
  method SliceSum(line: string, lo: nat, hi: nat, startWeight: nat) returns (r: Result<int>)
    requires lo <= hi
    ensures r.Ok? <==> hi <= |line| && AllMapped(line[lo..hi])
    ensures r.Ok? ==> r.value == WeightedSum(line[lo..hi], startWeight)
  {
    if hi > |line| {
      return Err(IndexOutOfRange);
    }
    r := CalculateSum(line[lo..hi], startWeight);
  }

  /** (int)char.GetNumericValue(mrz[OverallCheckDigit][0]). */
  method OverallDigit(v: View) returns (r: Result<int>)
    ensures r.Ok? <==> v.get(OverallCheckDigit).Ok? && |v.get(OverallCheckDigit).value| >= 1
    ensures r.Ok? ==> r.value == NumericValue(v.get(OverallCheckDigit).value[0])
  {
    var overall :- v.get(OverallCheckDigit);
    if |overall| == 0 {
      return Err(IndexOutOfRange);
    }
    r := Ok(NumericValue(overall[0]));
  }

  /** The TD1 check. The last composite slice is summed from weight index
      39, the running length of the slices before it, where the source
      writes 43 (TD1CompositeSumAsWritten). */
  method ValidateTD1(v: View) returns (r: Result<bool>)
    ensures r == Ok(true) <==> TD1Valid(v)
  {
    var isDocumentNumberValid :- CheckField(v, DocumentNumber, DocumentNumberCheckDigit);
    var isBirthDateValid :- CheckField(v, BirthDate, BirthDateCheckDigit);
    var isExpiryDateValid :- CheckField(v, ExpiryDate, ExpiryDateCheckDigit);

    var lines :- v.lines;
    if |lines| == 0 {
      return Err(SequenceEmpty);
    }
    var firstMrzLine := lines[0].value;
    if |lines| < 2 {
      return Err(SequenceEmpty);
    }
    var secondMrzLine := lines[1].value;
    if |firstMrzLine| >= 30 && |secondMrzLine| >= 29 {
      TD1CompositeOffsets(firstMrzLine, secondMrzLine);
    }
    var mrzCheckDigit :- OverallDigit(v);
    var calculatedCheckSum := 0;
    var sum :- SliceSum(firstMrzLine, 5, 30, 0);
    calculatedCheckSum := calculatedCheckSum + sum;
    sum :- SliceSum(secondMrzLine, 0, 7, 25);
    calculatedCheckSum := calculatedCheckSum + sum;
    sum :- SliceSum(secondMrzLine, 8, 15, 32);
    calculatedCheckSum := calculatedCheckSum + sum;
    sum :- SliceSum(secondMrzLine, 18, 29, 39);
    calculatedCheckSum := calculatedCheckSum + sum;
    var mrzCheckSumIsValid := calculatedCheckSum % 10 == mrzCheckDigit;

    r := Ok(isDocumentNumberValid && isBirthDateValid && isExpiryDateValid && mrzCheckSumIsValid);
  }

  method ValidateTD2(v: View) returns (r: Result<bool>)
    ensures r == Ok(true) <==> TD2Valid(v)
  {
    var isDocumentNumberValid :- CheckField(v, DocumentNumber, DocumentNumberCheckDigit);
    var isBirthDateValid :- CheckField(v, BirthDate, BirthDateCheckDigit);
    var isExpiryDateValid :- CheckField(v, ExpiryDate, ExpiryDateCheckDigit);

    var lines :- v.lines;
    if |lines| == 0 {
      return Err(SequenceEmpty);
    }
    var secondMrzLine := lines[|lines| - 1].value;
    var mrzCheckDigit :- OverallDigit(v);
    var calculatedCheckSum := 0;
    if |secondMrzLine| >= 35 {
      LowerLineCompositeOffsets(secondMrzLine, 35);
    }
    var sum :- SliceSum(secondMrzLine, 0, 10, 0);
    calculatedCheckSum := calculatedCheckSum + sum;
    sum :- SliceSum(secondMrzLine, 13, 20, 10);
    calculatedCheckSum := calculatedCheckSum + sum;
    sum :- SliceSum(secondMrzLine, 21, 35, 17);
    calculatedCheckSum := calculatedCheckSum + sum;
    var mrzCheckSumIsValid := calculatedCheckSum % 10 == mrzCheckDigit;

    var country :- v.get(CountryCode);
    if country == "MDA" {
      var expiry :- v.get(ExpiryDate);
      if expiry == "" {
        return Ok(isDocumentNumberValid && isBirthDateValid && isExpiryDateValid);
      }
    }

    r := Ok(isDocumentNumberValid && isBirthDateValid && isExpiryDateValid && mrzCheckSumIsValid);
  }

  method ValidateTD3(v: View) returns (r: Result<bool>)
    ensures r == Ok(true) <==> TD3Valid(v)
  {
    var isDocumentNumberValid :- CheckField(v, DocumentNumber, DocumentNumberCheckDigit);
    var isBirthDateValid :- CheckField(v, BirthDate, BirthDateCheckDigit);
    var isExpiryDateValid :- CheckField(v, ExpiryDate, ExpiryDateCheckDigit);
    var isOptionalDataValid :- CheckField(v, OptionalData, OptionalDataCheckDigit);

    var lines :- v.lines;
    if |lines| == 0 {
      return Err(SequenceEmpty);
    }
    var secondMrzLine := lines[|lines| - 1].value;
    assert secondMrzLine == LastLine(v);
    var mrzCheckDigit :- OverallDigit(v);
    var calculatedCheckSum := 0;
    if |secondMrzLine| >= 43 {
      LowerLineCompositeOffsets(secondMrzLine, 43);
    }
    var sum :- SliceSum(secondMrzLine, 0, 10, 0);
    calculatedCheckSum := calculatedCheckSum + sum;
    sum :- SliceSum(secondMrzLine, 13, 20, 10);
    calculatedCheckSum := calculatedCheckSum + sum;
    sum :- SliceSum(secondMrzLine, 21, 43, 17);
    calculatedCheckSum := calculatedCheckSum + sum;
    var mrzCheckSumIsValid := calculatedCheckSum % 10 == mrzCheckDigit;

    r := Ok(isDocumentNumberValid && isBirthDateValid && isExpiryDateValid && isOptionalDataValid && mrzCheckSumIsValid);
  }

  /** The visa layouts: the three field checks and no composite. */
  method ValidateMRV(v: View) returns (r: Result<bool>)
    ensures r == Ok(true) <==> CoreFieldChecksPass(v)
  {
    var isDocumentNumberValid :- CheckField(v, DocumentNumber, DocumentNumberCheckDigit);
    var isBirthDateValid :- CheckField(v, BirthDate, BirthDateCheckDigit);
    var isExpiryDateValid :- CheckField(v, ExpiryDate, ExpiryDateCheckDigit);
    r := Ok(isDocumentNumberValid && isBirthDateValid && isExpiryDateValid);
  }

  /** Validate: dispatch on the public type; every failure inside is caught
      and reported as false. */
  method Validate(code: MrzCode.Code, c: Collaborators) returns (ok: bool)
    ensures ok <==> IsValid(ViewOf(code, c))
  {
    var v := ViewOf(code, c);
    var r: Result<bool>;
    match v.codeType {
      case TD1 => r := ValidateTD1(v);
      case TD2 => r := ValidateTD2(v);
      case TD3 => r := ValidateTD3(v);
      case MRVA => r := ValidateMRV(v);
      case MRVB => r := ValidateMRV(v);
      case UNKNOWN => r := Ok(false);
    }
    ok := r.Ok? && r.value;
  }

  // ---------------------------------------------------------------------
  // Properties of validity

  /** The same code with its overall check digit read as `d`. */
  function WithOverallDigit(v: View, d: string): View {
    v.(get := t => if t == OverallCheckDigit then Ok(d) else v.get(t))
  }

  /** Outside the Moldovan exemption the overall check digit of a valid
      TD1, TD2 or TD3 code is the only one accepted: any other character in
      its place makes the code invalid. */
  lemma OverallDigitIsDecisive(v: View, d: char)
    requires v.codeType == CodeType.TD1 || v.codeType == CodeType.TD2 || v.codeType == CodeType.TD3
    requires !MdaExempt(v) && IsValid(v)
    requires d != v.get(OverallCheckDigit).value[0]
    ensures !IsValid(WithOverallDigit(v, [d]))
  {
    var w := WithOverallDigit(v, [d]);
    assert w.lines == v.lines && w.codeType == v.codeType;
    assert w.get(CountryCode) == v.get(CountryCode) && w.get(ExpiryDate) == v.get(ExpiryDate);
    if v.codeType == CodeType.TD1 {
      CompositeRejectsOtherDigit(TD1Composite(v.lines.value[0].value, v.lines.value[1].value), v, d);
    } else if v.codeType == CodeType.TD2 {
      CompositeRejectsOtherDigit(LowerLineComposite(LastLine(v), 35), v, d);
      assert LastLine(w) == LastLine(v);
    } else {
      CompositeRejectsOtherDigit(LowerLineComposite(LastLine(v), 43), v, d);
      assert LastLine(w) == LastLine(v);
    }
  }

  /** A composite that matches the overall check digit matches no other
      character in its place. */
  lemma CompositeRejectsOtherDigit(composite: string, v: View, d: char)
    requires CompositeMatches(composite, v)
    requires d != v.get(OverallCheckDigit).value[0]
    ensures !CompositeMatches(composite, WithOverallDigit(v, [d]))
  {
    var w := WithOverallDigit(v, [d]);
    assert w.get(OverallCheckDigit) == Ok([d]);
    var old_ := v.get(OverallCheckDigit).value[0];
    assert '0' <= old_ <= '9' by {
      SumNonNegative(composite, 0);
    }
    assert NumericValue(d) != NumericValue(old_);
  }

  /** Under the Moldovan exemption a valid TD2 code stays valid whatever
      single character its overall check digit holds. */
  lemma MdaExemptionIgnoresOverallDigit(v: View, d: char)
    requires v.codeType == CodeType.TD2 && MdaExempt(v) && IsValid(v)
    ensures IsValid(WithOverallDigit(v, [d]))
  {
  }

  /** A Bangladeshi card is validated by the TD1 algorithm, and one whose
      first line does not match its grammar has no fields, so it is never
      valid. */
  lemma BangladeshMismatchNeverValid(code: MrzCode.Code, c: Collaborators)
    requires code.cls == TD1BangladeshMrzCode
    requires |code.rawLines| >= 1
    requires forall k :: !TD1BangladeshFirstLine.MatchesAt(code.rawLines[0], k)
    ensures !IsValid(ViewOf(code, c))
  {
  }
}
