# MRZ parser core in Dafny

This project models the core of MRZCode.NET, a C# library that reads the
machine readable zone (MRZ) of passports, visas and identity cards laid out
according to ICAO Doc 9303. The core does three things:

- It detects the layout (TD1, TD1 Bangladesh, TD2, TD3, MRV-A, MRV-B or
  unknown) from the line count and the first line's shape.
- It builds the document for that layout, with its lines, fields and field
  lookup. For the Bangladeshi TD1 card this includes the regular-expression
  grammar of the first line.
- It validates the check digits with the 7-3-1 weighted scheme. This covers
  the field checks, the composite check of each layout and the exemption for
  Moldovan TD2 cards that have no expiry date.

Every exception the library throws becomes an `Err` of `MrzTypes.Result`.
`MrzValidator.Validate` collapses every `Err` to `false`, as the source's
catch-all does.

Modules, one per source file or concept:

- `MrzTypes` (types.dfy): the enumerations, `Field`, and the errors as values.
- `MrzLines` (mrz_line.dfy): a line as a value. Also the collaborators whose
  code is not part of this model, passed in as functions.
- `Checksum` (checksum.dfy): the character table, `CalculateSum` and
  `IsFieldValid`, plus the reference `WeightedSum` and its algebra.
- `TD1BangladeshFirstLine` (td1_bangladesh_first_line.dfy): the
  first-line grammar, the regex search and the field extraction.
- `TD1BangladeshMrzCode` (td1_bangladesh_mrz_code.dfy): the Bangladeshi
  document's lines and type.
- `CodeTypeDetector` (code_type_detector.dfy): layout detection.
- `MrzCode` (mrz_code.dfy): a parsed document, with `Fields`, the indexer,
  `ToString` and `Parse`.
- `MrzValidator` (mrz_validator.dfy): the per-layout validators, the
  reference predicate `IsValid`, and the TD1 composite finding.

Where the library's documentation and its code disagree, the model follows
the code:

- The Bangladesh grammar is searched for anywhere in the line. It is not
  anchored to the whole line.
- Extracted values lose every space, not only leading and trailing ones.

There is one exception, where the model follows ICAO Doc 9303 instead of
the code. The TD1 composite check in `MrzValidator.ValidateTD1`, and so
the TD1 verdict of `MrzValidator.Validate`, sums line 2's optional data
from weight index 39, where `MrzValidator.cs:57` writes 43 (see
"## Findings"). The code as written is modelled beside it:
`MrzValidator.TD1CompositeSumAsWritten` and the predicate
`MrzValidator.TD1ValidAsWritten`, with lemmas saying where the two verdicts
agree and where they differ.

## Model

| member | source | states |
|---|---|---|
| Checksum.CharValue | MRZCodeParser/MrzValidator.cs:9-22 | a table value is below 36, the size of the character set, and it is 0 exactly for `0`, `<`, space and `,` |
| Checksum.CharValueDomain | MRZCodeParser/MrzValidator.cs:9-22 | a character has a table value exactly when it is in the character set (digits and upper-case letters) or is `<`, space or `,`; any other character, such as a lower-case letter, has none |
| Checksum.NumericValue | MRZCodeParser/MrzValidator.cs:134 | the numeric value is -1 exactly for a non-digit; for a digit it equals the digit's table value |
| Checksum.CharsetPositions | MRZCodeParser/MrzValidator.cs:9-18 | the character at index i of the character set maps to i |
| Checksum.BuildMappedSumValues | MRZCodeParser/MrzValidator.cs:13-22 | the static constructor's loop fills the dictionary with exactly the characters that have a value, each mapped to `CharValue` |
| Checksum.CalculateSum | MRZCodeParser/MrzValidator.cs:119-127 | the loop succeeds exactly when every character is in the table and then returns the weighted sum from phase `startWeight`; otherwise it fails on a character missing from the table |
| Checksum.IsFieldValid | MRZCodeParser/MrzValidator.cs:129-138 | it throws exactly for a one-character check string over an unmapped value; it is true exactly when the check string is one character whose numeric value is the sum mod 10, and that character is then a digit |
| Checksum.SumSplit | MRZCodeParser/MrzValidator.cs:119-127 | the sum of a concatenation is the first part's sum plus the second's, taken at an offset of the first part's length |
| Checksum.AllMappedConcat | MRZCodeParser/MrzValidator.cs:119-127 | a concatenation can be summed exactly when both parts can |
| Checksum.SumNonNegative | MRZCodeParser/MrzValidator.cs:119-127 | a sum is never negative, so C#'s remainder and Dafny's agree on it |
| Checksum.FillerSumIsZero | MRZCodeParser/MrzValidator.cs:119-127 | a run of `<` sums to 0 at any length and phase |
| Checksum.SumPhase | MRZCodeParser/MrzValidator.cs:124 | only the start weight mod 3 matters |
| Checksum.SumSubstitution | MRZCodeParser/MrzValidator.cs:124 | replacing one character changes the sum by the difference in value times that position's weight |
| Checksum.DigitSubstitutionDetected | MRZCodeParser/MrzValidator.cs:129-138 | replacing one digit with another digit always changes the sum mod 10 |
| Checksum.CheckDigitIsUnique | MRZCodeParser/MrzValidator.cs:129-138 | at most one check character passes for a given value |
| Checksum.CheckDigitExists | MRZCodeParser/MrzValidator.cs:129-138 | every value that can be summed has a digit that passes |
| Checksum.SumOfThree | MRZCodeParser/MrzValidator.cs:119-127 | three mapped characters starting at a phase divisible by 3 are weighted 7, 3 and 1 |
| Checksum.SpecimenDocumentNumber | MRZCodeParser/MrzValidator.cs:129-138 | the ICAO specimen passport's document number `L898902C3` passes with check digit 6 and not with 5 |
| Checksum.SpecimenBirthDate | MRZCodeParser/MrzValidator.cs:129-138 | the specimen's birth date `740812` passes with check digit 2 and not with 3 |
| Checksum.SpecimenExpiryDate | MRZCodeParser/MrzValidator.cs:129-138 | the specimen's expiry date `120415` passes with check digit 9 and not with 0 |
| CodeTypeDetector.StartsWith | MRZCodeParser/CodeTypeDetector.cs:18 | a line starts with a prefix exactly when it is that prefix followed by some text |
| CodeTypeDetector.DetectType | MRZCodeParser/CodeTypeDetector.cs:15-32 | it fails exactly on no lines; a recognised layout has its ICAO line count and length; it is TD1 Bangladesh iff 3 lines of 30 starting `I<BGD`, TD3 iff 2 lines of 44 starting `P`, MRV-B iff 2 lines of 36 starting `V` |
| CodeTypeDetector.UnknownOnlyForOtherShapes | MRZCodeParser/CodeTypeDetector.cs:17-29 | the result is UNKNOWN exactly when the shape is none of 3x30, 2x44 and 2x36 |
| CodeTypeDetector.DetectionReadsOnlyShape | MRZCodeParser/CodeTypeDetector.cs:17-29 | two inputs with the same line count, first-line length and first five characters get the same layout |
| TD1BangladeshFirstLine.ClassAt | MRZCodeParser/CodeTypes/TD1BanghadeshFirstLine.cs:13 | each position's class admits only MRZ characters and the bar; positions 2 to 4 admit exactly `B`, `G` and `D` |
| TD1BangladeshFirstLine.Matches | MRZCodeParser/CodeTypes/TD1BanghadeshFirstLine.cs:13 | a matched text is 30 characters long, holds `BGD` at positions 2 to 4 and `<` at position 14, and has no space |
| TD1BangladeshFirstLine.MatchesAt | MRZCodeParser/CodeTypes/TD1BanghadeshFirstLine.cs:13 | a match at k fits inside the line and has `BGD` at k + 2 to k + 4 |
| TD1BangladeshFirstLine.Search | MRZCodeParser/CodeTypes/TD1BanghadeshFirstLine.cs:28-31 | the regex match is the leftmost position where the pattern matches; no match means no position matches |
| TD1BangladeshFirstLine.Groups | MRZCodeParser/CodeTypes/TD1BanghadeshFirstLine.cs:13 | the five capture groups concatenate back to the 30 matched characters |
| TD1BangladeshFirstLine.RemoveSpaces | MRZCodeParser/CodeTypes/TD1BanghadeshFirstLine.cs:41 | the result holds exactly the characters of its input other than space: every other character keeps its count, and spaces have count 0 |
| TD1BangladeshFirstLine.RemoveSpacesConcat | MRZCodeParser/CodeTypes/TD1BanghadeshFirstLine.cs:41 | removing spaces distributes over concatenation, so the kept characters stay in order |
| TD1BangladeshFirstLine.RemoveSpacesOfChar | MRZCodeParser/CodeTypes/TD1BanghadeshFirstLine.cs:41 | a single space is removed and any other single character is kept |
| TD1BangladeshFirstLine.FirstLineFields | MRZCodeParser/CodeTypes/TD1BanghadeshFirstLine.cs:24-46 | extraction succeeds iff the pattern occurs in the line and otherwise fails with the line; it yields five fields with the declared identifiers in order; field i holds capture group i + 1 of the leftmost match, cleaned and with its spaces removed, so it holds no space |
| TD1BangladeshFirstLine.CountryCodeIsBGD | MRZCodeParser/CodeTypes/TD1BanghadeshFirstLine.cs:39-41 | the country-code field of a matched line holds the cleaned, space-free text `BGD` |
| TD1BangladeshFirstLine.Line | MRZCodeParser/CodeTypes/TD1BanghadeshFirstLine.cs:9-22 | the line keeps its text, declares the five identifiers, and its extraction agrees with them |
| TD1BangladeshFirstLine.Fields | MRZCodeParser/CodeTypes/TD1BanghadeshFirstLine.cs:24-46 | the match-then-loop getter returns exactly `FirstLineFields` |
| TD1BangladeshFirstLine.MatchCoversThirtyCharLine | MRZCodeParser/CodeTypes/TD1BanghadeshFirstLine.cs:28-29 | on a 30-character line a match starts at 0 and its groups spell the whole line |
| TD1BangladeshFirstLine.CaptureShapes | MRZCodeParser/CodeTypes/TD1BanghadeshFirstLine.cs:13 | each capture has the shape of its group: type letter and one more character, `BGD`, nine digits then `<` then a digit, one digit, and 13 MRZ characters |
| TD1BangladeshFirstLine.BarIsADocumentTypeLetter | MRZCodeParser/CodeTypes/TD1BanghadeshFirstLine.cs:13 | the first class, a bracket expression, also admits the bar character as a document-type letter |
| TD1BangladeshFirstLine.RemoveSpacesIdempotent | MRZCodeParser/CodeTypes/TD1BanghadeshFirstLine.cs:41 | removing spaces twice is the same as removing them once |
| TD1BangladeshMrzCode.Type | MRZCodeParser/CodeTypes/TD1BangladeshMrzCode.cs:12 | a Bangladeshi card reports the public type TD1 |
| TD1BangladeshMrzCode.Lines | MRZCodeParser/CodeTypes/TD1BangladeshMrzCode.cs:14-19 | it succeeds exactly with at least two raw lines and then gives three lines; the first keeps raw line 0 under the Bangladesh grammar |
| MrzCode.TypeOf | MRZCodeParser/MrzCode.cs:12 | each class reports its own layout's type; only the two TD1 classes share one (TD1), and only the unknown class reports UNKNOWN |
| MrzCode.Lines | MRZCodeParser/MrzCode.cs:14 | for a Bangladeshi card the lines exist exactly when there are two raw lines or more, and then there are three, the first keeping raw line 0 |
| MrzCode.Remap | MRZCodeParser/MrzCode.cs:34 | the Bangladeshi class does not override the remapping, so it leaves every identifier unchanged |
| MrzCode.ConcatFieldTypes | MRZCodeParser/MrzCode.cs:16 | the document's identifiers begin with the first line's; an identifier is listed exactly when some line lists it |
| MrzCode.FieldTypes | MRZCodeParser/MrzCode.cs:16 | the identifiers exist exactly when the lines do, and hold exactly the identifiers some line lists |
| MrzCode.AllFields | MRZCodeParser/MrzCode.cs:37-49 | collecting succeeds exactly when every line's extraction does, and the first line's fields come first |
| MrzCode.DocumentFields | MRZCodeParser/MrzCode.cs:37-49 | a failure of the lines propagates with its error; otherwise the fields exist exactly when every line's extraction succeeds, and begin with the first line's fields |
| MrzCode.Fields | MRZCodeParser/MrzCode.cs:37-49 | the loop that appends each line's fields returns exactly `DocumentFields` |
| MrzCode.AllFieldsAppendLine | MRZCodeParser/MrzCode.cs:42-45 | collecting one more line appends its fields, or fails with its error |
| MrzCode.AllFieldsErrPrefix | MRZCodeParser/MrzCode.cs:42-45 | once a line fails, later lines do not change the outcome |
| MrzCode.FieldsFollowFieldTypes | MRZCodeParser/MrzCode.cs:16-49 | when every line's extraction agrees with its identifiers, the document's fields carry exactly `FieldTypes`, in order |
| MrzCode.FirstOfType | MRZCodeParser/MrzCode.cs:30 | the value returned belongs to the first field with the identifier |
| MrzCode.Get | MRZCodeParser/MrzCode.cs:18-32 | a failure in collecting fields propagates; after the identifier is remapped, the lookup fails with FieldNotSupported exactly when no field carries the identifier, and otherwise returns a value of a field that does |
| MrzCode.GetSucceedsForListedTypes | MRZCodeParser/MrzCode.cs:16-32 | with consistent lines, the lookup succeeds exactly for the identifiers `FieldTypes` lists |
| MrzCode.Join | MRZCodeParser/MrzCode.cs:58 | the joined text begins with the first part, followed by the separator when more parts follow |
| MrzCode.ToString | MRZCodeParser/MrzCode.cs:56-59 | a failure of the lines propagates with its error; the text exists exactly when the lines do, and begins with the first line's value |
| MrzCode.SplitJoin | MRZCodeParser/MrzCode.cs:58 | splitting a join by its separator gives the parts back when no part holds the separator |
| MrzCode.ToStringListsLines | MRZCodeParser/MrzCode.cs:56-59 | the text form splits back into the lines' values, in order |
| MrzCode.ClassFor | MRZCodeParser/MrzCode.cs:68-77 | the unknown class is chosen exactly for UNKNOWN; each class reports the type of its layout, and TD1 Bangladesh reports TD1 |
| MrzCode.ClassForIsInjective | MRZCodeParser/MrzCode.cs:68-77 | different layouts get different classes |
| MrzCode.Parse | MRZCodeParser/MrzCode.cs:61-78 | parsing fails exactly on no lines; it keeps the lines unchanged and instantiates the class of the detected layout |
| MrzCode.ParsedBangladeshCard | MRZCodeParser/MrzCode.cs:61-78 | a card parsed as Bangladeshi has three lines, reports TD1, is built from lines 0, 1 and 2, and its identifiers begin with the five of the Bangladesh first line |
| MrzValidator.TD1CompositeOffsets | MRZCodeParser/MrzValidator.cs:54-57 | the TD1 composite can be summed iff each of its four slices can; its sum is the slices' sums at offsets 0, 25, 32 and 39, their running lengths |
| MrzValidator.TD1CompositeSumAsWritten | MRZCodeParser/MrzValidator.cs:54-57 | the sum with offsets 0, 25, 32 and 43, as written, is the contiguous sum of the ICAO composite with four fillers inserted before line 2's optional data |
| MrzValidator.TD1PaddedOffsets | MRZCodeParser/MrzValidator.cs:54-57 | the padded composite can be summed and its sum is the four slices' sums at offsets 0, 25, 32 and 43 |
| MrzValidator.TD1ValidAsWritten | MRZCodeParser/MrzValidator.cs:44-61 | the TD1 verdict as written: the field checks pass, both lines are long enough, and the padded composite matches the overall digit |
| MrzValidator.TD1AsWrittenShiftsOptionalData | MRZCodeParser/MrzValidator.cs:57 | the written sum, with the last slice at offset 43, equals the ICAO sum with the optional data re-weighted from phase 0 to phase 1 |
| MrzValidator.TD1AsWrittenAgreesOnFiller | MRZCodeParser/MrzValidator.cs:54-58 | when the optional data of line 2 is all filler, the written sum equals the ICAO sum |
| MrzValidator.TD1AsWrittenMisweighsOptionalData | MRZCodeParser/MrzValidator.cs:57 | when the optional data of line 2 is `1` followed by filler, the written sum and the ICAO sum differ mod 10 |
| MrzValidator.TD1AsWrittenAgreesOnFillerCards | MRZCodeParser/MrzValidator.cs:44-61 | on a card whose line-2 optional data is all filler, the TD1 verdict as written and the ICAO verdict coincide |
| MrzValidator.TD1AsWrittenDisagreesOnOptionalData | MRZCodeParser/MrzValidator.cs:44-61 | on a card whose line-2 optional data is `1` followed by filler, a card valid under ICAO is invalid as written |
| MrzValidator.TD1AsWrittenDisagreesOnSampleLine | MRZCodeParser/MrzValidator.cs:44-61 | on a card with line 2 `7408122F1204159UTO1<<<<<<<<<<`, a card valid under ICAO is invalid as written |
| MrzValidator.LowerLineCompositeOffsets | MRZCodeParser/MrzValidator.cs:72-74 | the TD2 and TD3 composite can be summed iff each slice can; its sum is the slices' sums at offsets 0, 10 and 17, their running lengths |
| MrzValidator.CheckField | MRZCodeParser/MrzValidator.cs:46 | a field check passes exactly when both lookups succeed and the check digit matches |
| MrzValidator.SliceSum | MRZCodeParser/MrzValidator.cs:54 | summing a range succeeds exactly when the line reaches its end and the range can be summed, and then returns that range's sum |
| MrzValidator.OverallDigit | MRZCodeParser/MrzValidator.cs:52 | it succeeds exactly when the overall check digit field exists and is non-empty, and returns its first character's numeric value |
| MrzValidator.ValidateTD1 | MRZCodeParser/MrzValidator.cs:44-61 | true exactly when the three field checks pass, there are two lines long enough, and the ICAO composite of line 1 from position 5 and line 2's three slices matches the overall digit |
| MrzValidator.ValidateTD2 | MRZCodeParser/MrzValidator.cs:63-85 | true exactly when the three field checks pass, the composite of the last line up to 35 can be computed, the country exists, and either the code is exempt (MDA with an empty expiry date) or the composite matches |
| MrzValidator.ValidateTD3 | MRZCodeParser/MrzValidator.cs:87-103 | true exactly when the four field checks, including optional data, pass and the composite of the last line up to 43 matches |
| MrzValidator.ValidateMRV | MRZCodeParser/MrzValidator.cs:105-112 | true exactly when the three field checks pass |
| MrzValidator.Validate | MRZCodeParser/MrzValidator.cs:24-42 | the verdict is exactly `IsValid` of the code: dispatch on the public type, false for UNKNOWN and false on any failure |
| MrzValidator.OverallDigitIsDecisive | MRZCodeParser/MrzValidator.cs:58-60 | for a valid TD1, TD2 or TD3 code outside the exemption, putting any other character in place of the overall check digit makes it invalid |
| MrzValidator.MdaExemptionIgnoresOverallDigit | MRZCodeParser/MrzValidator.cs:78-82 | an exempt valid TD2 code stays valid whatever single character its overall check digit holds |
| MrzValidator.BangladeshMismatchNeverValid | MRZCodeParser/MrzValidator.cs:24-42 | a Bangladeshi card whose first line contains no match of the grammar is never valid |

## Findings

| source | as written | input that shows it | evidently intended | confidence | as-written member | corrected member |
|---|---|---|---|---|---|---|
| MRZCodeParser/MrzValidator.cs:57 | The TD1 composite's last slice (line 2, positions 19-29) is summed from weight index 43. Only 25 + 7 + 7 = 39 characters precede it. | A TD1 card whose line-2 optional data is `1<<<<<<<<<<`, e.g. line 2 `7408122F1204159UTO1<<<<<<<<<<` plus its check digit. Its `1` is weighted 3 instead of 7, so the computed composite digit is off by 4 mod 10. | The slice is summed from index 39, so the weights run on contiguously over the ICAO composite. | high; not executed | MrzValidator.TD1AsWrittenDisagreesOnSampleLine | MrzValidator.ValidateTD1 |

## Left out

- The line splitter is not part of this model. `MrzCode.Parse` starts from lines that are already split, so the claim that re-parsing `ToString`'s text gives the same document is not modelled. `MrzCode.SplitJoin` states the splitting half of that claim for a plain separator split.
- The ValueCleaner is a parameter (`Collaborators.clean`), because its code is not part of this model.
- The TD1 second and third lines are parameters, as are the `Lines` of every class other than the Bangladeshi one and their `ChangeBackwardFieldTypeToCurrent` overrides. Their grammars are not part of this model.
- The public `Type` of those other classes is taken to be their layout's namesake.
- MrzCode.FirstOfType: FieldsCollection's own indexer is not part of this model. Lookup returns the first field with the identifier.
- MrzCode.Get: says nothing specific about the unknown class, whose lines are a parameter, so an unknown code's lookups are not shown to fail.
- The MRZ line base class, its field store and its pattern matching for the other lines are left out. They are reached only through `MrzLines.MrzLine`.
- `Environment.NewLine` is fixed to `\n` (`MrzCode.NEW_LINE`), because the platform's value is outside the model.
- Checksum.NumericValue: models `char.GetNumericValue` for ASCII only. Non-ASCII digits and numeric characters such as fractions are read as -1.
- Checksum.CalculateSum: the start weight is a natural number. The source's callers pass only 0, 10, 17, 25, 32 and 43.
- The static dictionary is modelled as the function `Checksum.CharValue`. `Checksum.BuildMappedSumValues` states that the constructor's loop builds exactly that table.
- Laziness and repeated evaluation of the C# properties are not modelled: the lines and fields are rebuilt on each access, with the same result. Every lookup is a pure function of the code and its collaborators.
- The order in which exceptions surface inside a validator is not modelled, only whether one occurs, because `Validate` turns every exception into `false`.
- `TD1BangladeshMrzCode.cs` constructs `TD1BangladeshFirstLine`, while the line class file declares `TD1BanghadeshFirstLine`. The model takes them to be the same class.
- MrzValidator.ValidateTD1: the composite check sums line 2's optional data from weight index 39, as ICAO Doc 9303 defines it, not from the 43 the source writes. The as-written verdict is `MrzValidator.TD1ValidAsWritten`.
- MrzValidator.Validate: a TD1 code's verdict is the ICAO one, with the optional data summed from index 39, not the source's as-written verdict.
- CodeTypeDetector.DetectType: lines are sequences of Unicode scalar values, whereas C# `Length`, indexing and ranges count UTF-16 code units. The two agree only on text inside the Basic Multilingual Plane, which includes the whole MRZ character set. A line with a character outside it, such as U+1F600, is one shorter in the model. So the shape tests here, and the slice bounds of `MrzValidator.ValidateTD1`, `MrzValidator.ValidateTD2` and `MrzValidator.ValidateTD3`, can differ from the source on such lines.
- CodeTypeDetector.DetectType: the prefix tests are ordinal, character by character. .NET's `string.StartsWith(string)` compares culture-sensitively and may ignore code points such as the soft hyphen U+00AD; culture data is outside this model.
- Checksum.CalculateSum: the sum and the weight index are unbounded integers. The source's 32-bit `int sum` and `int j` would wrap past 2^31 - 1 on inputs far longer than any MRZ line.
- The ICAO specimen is checked field by field (`Checksum.SpecimenDocumentNumber`, `Checksum.SpecimenBirthDate`, `Checksum.SpecimenExpiryDate`). The specimen is a TD3 passport, and a TD3 code's lines are a parameter of the model (`Collaborators.otherLines`), so the whole card is not run through `MrzValidator.Validate`.
