/** Layout detection from the shape of the already-split lines: the line
    count, the first line's length and its leading characters. */
module CodeTypeDetector {
  import opened MrzTypes

  /** An ordinal prefix test: `s` is `prefix` followed by some text. */
  predicate StartsWith(s: string, prefix: string): (b: bool)
    ensures b <==> exists rest :: s == prefix + rest
  {
    && |prefix| <= |s|
    && assert |prefix| <= |s| ==> s == s[..|prefix|] + s[|prefix|..];
       s[..|prefix|] == prefix
  }

  /** The number of lines ICAO Doc 9303 gives each recognised layout. */
  function LineCount(h: HandlingType): nat
    requires h != HandlingType.UNKNOWN
  {
    match h
    case TD1 => 3
    case TD1Bangladesh => 3
    case TD2 => 2
    case TD3 => 2
    case MRVA => 2
    case MRVB => 2
  }

  /** The line length ICAO Doc 9303 gives each recognised layout. */
  function LineLength(h: HandlingType): nat
    requires h != HandlingType.UNKNOWN
  {
    match h
    case TD1 => 30
    case TD1Bangladesh => 30
    case TD2 => 36
    case MRVB => 36
    case TD3 => 44
    case MRVA => 44
  }

  /** DetectType. Throws (First() on an empty sequence) exactly when there
      are no lines; a recognised layout always has its ICAO shape, and the
      leading character or prefix tells the layouts of one shape apart. */
  function DetectType(lines: seq<string>): (r: Result<HandlingType>)
    ensures r.Err? <==> |lines| == 0
    ensures r.Ok? && r.value != HandlingType.UNKNOWN ==>
      |lines| == LineCount(r.value) && |lines[0]| == LineLength(r.value)
    ensures r.Ok? ==> (r.value == HandlingType.TD1Bangladesh <==> |lines| == 3 && |lines[0]| == 30 && StartsWith(lines[0], "I<BGD"))
    ensures r.Ok? ==> (r.value == HandlingType.TD3 <==> |lines| == 2 && |lines[0]| == 44 && lines[0][0] == 'P')
    ensures r.Ok? ==> (r.value == HandlingType.MRVB <==> |lines| == 2 && |lines[0]| == 36 && lines[0][0] == 'V')
  {
    if |lines| == 3 && |lines[0]| == 30 then
      if StartsWith(lines[0], "I<BGD") then Ok(HandlingType.TD1Bangladesh) else Ok(HandlingType.TD1)
    else if |lines| == 0 then
      Err(SequenceEmpty)
    else if |lines[0]| == 44 && |lines| == 2 then
      if lines[0][0] == 'P' then Ok(HandlingType.TD3) else Ok(HandlingType.MRVA)
    else if |lines[0]| == 36 && |lines| == 2 then
      if lines[0][0] == 'V' then Ok(HandlingType.MRVB) else Ok(HandlingType.TD2)
    else
      Ok(HandlingType.UNKNOWN)
  }

  /** Every input of a recognised shape is recognised: only a line count or
      first-line length outside the four ICAO shapes yields UNKNOWN. */
  lemma UnknownOnlyForOtherShapes(lines: seq<string>)
    requires |lines| > 0
    ensures DetectType(lines) == Ok(HandlingType.UNKNOWN) <==>
      !((|lines| == 3 && |lines[0]| == 30) || (|lines| == 2 && (|lines[0]| == 44 || |lines[0]| == 36)))
  {
  }

  /** The result depends only on the line count, the first line's length and
      its first five characters: content after them, and every later line,
      is never read. */
  lemma DetectionReadsOnlyShape(a: seq<string>, b: seq<string>)
    requires |a| == |b| && |a| > 0
    requires |a[0]| == |b[0]|
    requires a[0][..if |a[0]| < 5 then |a[0]| else 5] == b[0][..if |b[0]| < 5 then |b[0]| else 5]
    ensures DetectType(a) == DetectType(b)
  {
  }
}
