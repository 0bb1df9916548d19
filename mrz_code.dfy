/** A parsed code: the class Parse selected and the raw lines it was built
    from; its lines, field identifiers, fields, field lookup and text form. */
module MrzCode {
  import opened MrzTypes
  import opened MrzLines
  import CodeTypeDetector
  import TD1BangladeshFirstLine
  import TD1BangladeshMrzCode

  /** The line separator ToString joins with. */
  const NEW_LINE: char := '\n'

  /** A code: the class Parse instantiated and the raw lines it stores. */
  datatype Code = Code(cls: CodeClass, rawLines: seq<string>)

  /** The Type property of each code class: each class reports its own
      layout, the two TD1 classes share TD1, and only the class for an
      undetected layout reports UNKNOWN. */
  function TypeOf(cls: CodeClass): (r: CodeType)
    ensures r == CodeType.TD1 <==> cls == TD1MrzCode || cls == TD1BangladeshMrzCode
    ensures r == CodeType.TD2 <==> cls == TD2MrzCode
    ensures r == CodeType.TD3 <==> cls == TD3MrzCode
    ensures r == CodeType.MRVA <==> cls == MRVAMrzCode
    ensures r == CodeType.MRVB <==> cls == MRVBMrzCode
    ensures r == CodeType.UNKNOWN <==> cls == UnknownMrzCode
  {
    match cls
    case TD1MrzCode => CodeType.TD1
    case TD1BangladeshMrzCode => TD1BangladeshMrzCode.Type()
    case TD2MrzCode => CodeType.TD2
    case TD3MrzCode => CodeType.TD3
    case MRVAMrzCode => CodeType.MRVA
    case MRVBMrzCode => CodeType.MRVB
    case UnknownMrzCode => CodeType.UNKNOWN
  }

  /** The Lines property of the code's class. A Bangladeshi card needs two
      raw lines and always gives three, the first keeping raw line 0. */
  function Lines(code: Code, c: Collaborators): (r: Result<seq<MrzLine>>)
    ensures code.cls == TD1BangladeshMrzCode ==>
      && (r.Ok? <==> |code.rawLines| >= 2)
      && (r.Ok? ==> |r.value| == 3 && r.value[0].value == code.rawLines[0])
  {
    match code.cls
    case TD1BangladeshMrzCode => TD1BangladeshMrzCode.Lines(code.rawLines, c)
    case _ => c.otherLines(code.cls, code.rawLines)
  }

  /** ChangeBackwardFieldTypeToCurrent: the identity unless the class
      overrides it; the Bangladesh class does not. */
  function Remap(code: Code, c: Collaborators, t: FieldType): (r: FieldType)
    ensures code.cls == TD1BangladeshMrzCode ==> r == t
  {
    if code.cls == TD1BangladeshMrzCode then t else c.remap(code.cls, t)
  }

  // ---------------------------------------------------------------------
  // FieldTypes and Fields

  /** The lines' identifiers, concatenated in line order (SelectMany). */
  function ConcatFieldTypes(lines: seq<MrzLine>): (r: seq<FieldType>)
    ensures lines != [] ==> lines[0].fieldTypes <= r
    ensures forall i, t :: 0 <= i < |lines| && t in lines[i].fieldTypes ==> t in r
    ensures forall t :: t in r ==> exists i :: 0 <= i < |lines| && t in lines[i].fieldTypes
  {
    if lines == [] then [] else lines[0].fieldTypes + ConcatFieldTypes(lines[1..])
  }

  /** The identifiers of all lines: defined exactly when Lines is, and
      holding exactly the identifiers some line lists. */
  function FieldTypes(code: Code, c: Collaborators): (r: Result<seq<FieldType>>)
    ensures r.Ok? <==> Lines(code, c).Ok?
    ensures r.Ok? ==> forall i, t :: 0 <= i < |Lines(code, c).value| && t in Lines(code, c).value[i].fieldTypes ==> t in r.value
    ensures r.Ok? ==> forall t :: t in r.value ==>
      exists i :: 0 <= i < |Lines(code, c).value| && t in Lines(code, c).value[i].fieldTypes
  {
    var lines :- Lines(code, c);
    Ok(ConcatFieldTypes(lines))
  }

  /** The fields of all lines in line order; the first line whose extraction
      throws makes the whole collection throw. */
  function AllFields(lines: seq<MrzLine>): (r: Result<seq<Field>>)
    ensures r.Ok? <==> forall i :: 0 <= i < |lines| ==> lines[i].fields.Ok?
    ensures r.Ok? && lines != [] ==> lines[0].fields.value <= r.value
  {
    if lines == [] then Ok([])
    else
      var head :- lines[0].fields;
      var rest :- AllFields(lines[1..]);
      Ok(head + rest)
  }

  /** The Fields property: a failing Lines fails it with the same error,
      otherwise it succeeds exactly when every line's extraction does, and
      then begins with the first line's fields. */
  function DocumentFields(code: Code, c: Collaborators): (r: Result<seq<Field>>)
    ensures Lines(code, c).Err? ==> r == Err(Lines(code, c).error)
    ensures r.Ok? <==> (Lines(code, c).Ok? &&
      forall i :: 0 <= i < |Lines(code, c).value| ==> Lines(code, c).value[i].fields.Ok?)
    ensures r.Ok? && Lines(code, c).value != [] ==> Lines(code, c).value[0].fields.value <= r.value
  {
    var lines :- Lines(code, c);
    AllFields(lines)
  }

  /** The Fields getter: one list, extended by each line's fields in turn. */
  method Fields(code: Code, c: Collaborators) returns (r: Result<seq<Field>>)
    ensures r == DocumentFields(code, c)
  {
    var lines :- Lines(code, c);
    var fields: seq<Field> := [];
    for i := 0 to |lines|
      invariant AllFields(lines[..i]) == Ok(fields)
    {
      assert lines[..i + 1] == lines[..i] + [lines[i]];
      AllFieldsAppendLine(lines[..i], lines[i]);
      if lines[i].fields.Err? {
        AllFieldsErrAt(lines, i + 1);
        return Err(lines[i].fields.error);
      }
      fields := fields + lines[i].fields.value;
    }
    assert lines[..|lines|] == lines;
    r := Ok(fields);
  }

  lemma {:induction false} AllFieldsAppendLine(prefix: seq<MrzLine>, line: MrzLine)
    requires AllFields(prefix).Ok?
    ensures AllFields(prefix + [line]) ==
      if line.fields.Ok? then Ok(AllFields(prefix).value + line.fields.value) else Err(line.fields.error)
  {
    if prefix == [] {
      assert prefix + [line] == [line] && [line][1..] == [];
      assert AllFields(prefix) == Ok([]);
      if line.fields.Ok? {
        assert AllFields([line]) == Ok(line.fields.value + AllFields([line][1..]).value);
        assert [] + line.fields.value == line.fields.value + [];
      }
    } else {
      assert (prefix + [line])[0] == prefix[0];
      assert (prefix + [line])[1..] == prefix[1..] + [line];
      AllFieldsAppendLine(prefix[1..], line);
      var head, tail := prefix[0].fields.value, AllFields(prefix[1..]).value;
      assert AllFields(prefix).value == head + tail;
      if line.fields.Ok? {
        assert AllFields(prefix[1..] + [line]) == Ok(tail + line.fields.value);
        assert head + (tail + line.fields.value) == (head + tail) + line.fields.value;
      }
    }
  }

  /** A failure among the first n lines is the failure of all of them. */
  lemma AllFieldsErrAt(lines: seq<MrzLine>, n: nat)
    requires n <= |lines| && AllFields(lines[..n]).Err?
    ensures AllFields(lines) == AllFields(lines[..n])
  {
    assert lines[..n] + lines[n..] == lines;
    AllFieldsErrPrefix(lines[..n], lines[n..]);
  }

  lemma {:induction false} AllFieldsErrPrefix(prefix: seq<MrzLine>, rest: seq<MrzLine>)
    requires AllFields(prefix).Err?
    ensures AllFields(prefix + rest) == AllFields(prefix)
  {
    assert (prefix + rest)[0] == prefix[0];
    if prefix[0].fields.Ok? {
      assert (prefix + rest)[1..] == prefix[1..] + rest;
      AllFieldsErrPrefix(prefix[1..], rest);
    }
  }

  /** Nothing is added or dropped: when every line's extraction agrees with
      its identifiers, the document's fields carry exactly FieldTypes, in
      order. */
  lemma {:induction false} FieldsFollowFieldTypes(lines: seq<MrzLine>)
    requires forall i :: 0 <= i < |lines| ==> Consistent(lines[i])
    requires AllFields(lines).Ok?
    ensures |AllFields(lines).value| == |ConcatFieldTypes(lines)|
    ensures forall i :: 0 <= i < |ConcatFieldTypes(lines)| ==>
      AllFields(lines).value[i].fieldType == ConcatFieldTypes(lines)[i]
  {
    if lines != [] {
      FieldsFollowFieldTypes(lines[1..]);
      var head, rest := lines[0].fields.value, AllFields(lines[1..]).value;
      assert Consistent(lines[0]);
      assert AllFields(lines).value == head + rest;
      assert ConcatFieldTypes(lines) == lines[0].fieldTypes + ConcatFieldTypes(lines[1..]);
    }
  }

  // ---------------------------------------------------------------------
  // The indexer

  /** The value of the first field with identifier t (the FieldsCollection
      indexer). */
  function FirstOfType(fields: seq<Field>, t: FieldType): (v: string)
    requires exists i :: 0 <= i < |fields| && fields[i].fieldType == t
    ensures exists i :: (0 <= i < |fields| && fields[i] == Field(t, v) &&
      forall j :: 0 <= j < i ==> fields[j].fieldType != t)
  {
    if fields[0].fieldType == t then
      assert fields[0] == Field(t, fields[0].value);
      fields[0].value
    else
      var v := FirstOfType(fields[1..], t);
      ghost var i :| 0 <= i < |fields[1..]| && fields[1..][i] == Field(t, v) &&
        forall j :: 0 <= j < i ==> fields[1..][j].fieldType != t;
      assert fields[i + 1] == Field(t, v);
      v
  }

  /** this[type]: the fields are collected, the requested identifier is
      remapped, and a missing identifier throws FieldNotSupported. */
  function Get(code: Code, c: Collaborators, t: FieldType): (r: Result<string>)
    ensures DocumentFields(code, c).Err? ==> r == Err(DocumentFields(code, c).error)
    ensures DocumentFields(code, c).Ok? ==>
      var fs := DocumentFields(code, c).value;
      (r.Err? <==> forall i :: 0 <= i < |fs| ==> fs[i].fieldType != Remap(code, c, t))
    ensures r.Err? && DocumentFields(code, c).Ok? ==> r.error == FieldNotSupported(TypeOf(code.cls), t)
    ensures r.Ok? ==> exists i :: (0 <= i < |DocumentFields(code, c).value| &&
      DocumentFields(code, c).value[i] == Field(Remap(code, c, t), r.value))
  {
    var fields :- DocumentFields(code, c);
    var target := Remap(code, c, t);
    if forall i :: 0 <= i < |fields| ==> fields[i].fieldType != target then
      Err(FieldNotSupported(TypeOf(code.cls), t))
    else
      Ok(FirstOfType(fields, target))
  }

  /** Lookup succeeds exactly for the identifiers FieldTypes lists, once the
      lines' fields are extracted and agree with their identifiers. */
  lemma GetSucceedsForListedTypes(code: Code, c: Collaborators, t: FieldType)
    requires Lines(code, c).Ok?
    requires forall i :: 0 <= i < |Lines(code, c).value| ==> Consistent(Lines(code, c).value[i])
    requires DocumentFields(code, c).Ok?
    ensures Get(code, c, t).Ok? <==> Remap(code, c, t) in FieldTypes(code, c).value
  {
    var lines := Lines(code, c).value;
    FieldsFollowFieldTypes(lines);
    var fs, types := DocumentFields(code, c).value, ConcatFieldTypes(lines);
    if Remap(code, c, t) in types {
      var i :| 0 <= i < |types| && types[i] == Remap(code, c, t);
      assert fs[i].fieldType == Remap(code, c, t);
    }
  }

  // ---------------------------------------------------------------------
  // ToString

  /** string.Join with a one-character separator: the text begins with the
      first part, followed by the separator when more parts follow. */
  function Join(parts: seq<string>, sep: char): (r: string)
    ensures |parts| >= 1 ==> parts[0] <= r
    ensures |parts| >= 2 ==> |r| > |parts[0]| && r[|parts[0]|] == sep
  {
    if |parts| == 0 then ""
    else if |parts| == 1 then parts[0]
    else parts[0] + [sep] + Join(parts[1..], sep)
  }

  /** The position of the first `sep` in `s`. */
  function IndexOf(s: string, sep: char): (r: nat)
    requires sep in s
    ensures r < |s| && s[r] == sep && sep !in s[..r]
  {
    if s[0] == sep then 0
    else
      var r := IndexOf(s[1..], sep);
      assert s[..r + 1] == [s[0]] + s[1..][..r];
      r + 1
  }

  /** The pieces of `s` between separators: the reading a line splitter
      gives of a joined text. */
  function Split(s: string, sep: char): (r: seq<string>)
    ensures |r| >= 1
    decreases |s|
  {
    if sep !in s then [s]
    else
      var i := IndexOf(s, sep);
      [s[..i]] + Split(s[i + 1..], sep)
  }

  /** ToString: a failing Lines fails it with the same error; otherwise the
      text begins with the first line's value. */
  function ToString(code: Code, c: Collaborators): (r: Result<string>)
    ensures Lines(code, c).Err? ==> r == Err(Lines(code, c).error)
    ensures r.Ok? <==> Lines(code, c).Ok?
    ensures r.Ok? && |Lines(code, c).value| >= 1 ==> Lines(code, c).value[0].value <= r.value
  {
    var lines :- Lines(code, c);
    Ok(Join(seq(|lines|, i requires 0 <= i < |lines| => lines[i].value), NEW_LINE))
  }

  /** Splitting a join gives back the parts, when no part holds the separator. */
  lemma {:induction false} SplitJoin(parts: seq<string>, sep: char)
    requires |parts| >= 1
    requires forall i :: 0 <= i < |parts| ==> sep !in parts[i]
    ensures Split(Join(parts, sep), sep) == parts
  {
    if |parts| > 1 {
      var s := Join(parts, sep);
      var p, t := parts[0], Join(parts[1..], sep);
      assert s == p + [sep] + t;
      assert s[|p|] == sep && sep in s;
      var i := IndexOf(s, sep);
      if i < |p| {
        assert false;
      }
      if i > |p| {
        assert false;
      }
      assert s[..i] == p;
      assert s[i + 1..] == t;
      SplitJoin(parts[1..], sep);
    }
  }

  /** ToString lists the lines' text in line order: a text without embedded
      line breaks splits back into exactly the lines' values. */
  lemma ToStringListsLines(code: Code, c: Collaborators)
    requires Lines(code, c).Ok? && |Lines(code, c).value| >= 1
    requires forall i :: 0 <= i < |Lines(code, c).value| ==> NEW_LINE !in Lines(code, c).value[i].value
    ensures ToString(code, c).Ok?
    ensures var lines := Lines(code, c).value;
      Split(ToString(code, c).value, NEW_LINE) == seq(|lines|, i requires 0 <= i < |lines| => lines[i].value)
  {
    var lines := Lines(code, c).value;
    SplitJoin(seq(|lines|, i requires 0 <= i < |lines| => lines[i].value), NEW_LINE);
  }

  // ---------------------------------------------------------------------
  // Parse

  /** The class Parse instantiates for each detected layout. */
  function ClassFor(h: HandlingType): (cls: CodeClass)
    ensures (cls == UnknownMrzCode) <==> (h == HandlingType.UNKNOWN)
    ensures TypeOf(cls) == match h
      case TD1Bangladesh => CodeType.TD1
      case TD1 => CodeType.TD1
      case TD2 => CodeType.TD2
      case TD3 => CodeType.TD3
      case MRVA => CodeType.MRVA
      case MRVB => CodeType.MRVB
      case UNKNOWN => CodeType.UNKNOWN
  {
    match h
    case TD1 => TD1MrzCode
    case TD1Bangladesh => TD1BangladeshMrzCode
    case TD2 => TD2MrzCode
    case TD3 => TD3MrzCode
    case MRVA => MRVAMrzCode
    case MRVB => MRVBMrzCode
    case UNKNOWN => UnknownMrzCode
  }

  /** Every layout gets a class of its own. */
  lemma ClassForIsInjective(h1: HandlingType, h2: HandlingType)
    requires ClassFor(h1) == ClassFor(h2)
    ensures h1 == h2
  {
  }

  /** Parse from already-split lines: detect, then instantiate the class for
      the layout over the unchanged lines. No check digit is examined. */
  function Parse(lines: seq<string>): (r: Result<Code>)
    ensures r.Err? <==> |lines| == 0
    ensures r.Ok? ==> r.value.rawLines == lines
    ensures r.Ok? ==> (CodeTypeDetector.DetectType(lines).Ok? &&
      r.value.cls == ClassFor(CodeTypeDetector.DetectType(lines).value))
  {
    var h :- CodeTypeDetector.DetectType(lines);
    Ok(Code(ClassFor(h), lines))
  }

  /** A parsed Bangladeshi card: three raw lines, so the third line wraps
      raw element 2; the document reports TD1 and its identifiers begin with
      the five of the Bangladesh first line. */
  lemma ParsedBangladeshCard(lines: seq<string>, c: Collaborators)
    requires Parse(lines).Ok? && Parse(lines).value.cls == TD1BangladeshMrzCode
    ensures var code := Parse(lines).value;
      && |lines| == 3
      && TypeOf(code.cls) == CodeType.TD1
      && Lines(code, c) == Ok([TD1BangladeshFirstLine.Line(lines[0], c.clean), c.secondLine(lines[1]), c.thirdLine(lines[2])])
      && FieldTypes(code, c).Ok?
      && FieldTypes(code, c).value[..5] == TD1BangladeshFirstLine.FIELD_TYPES
  {
  }
}
