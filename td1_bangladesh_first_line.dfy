/** The first line of a Bangladeshi TD1 identity card: the fixed-width
    pattern
      ([A|C|I][A-Z0-9<]{1})(BGD)([0-9]{9}<[0-9]{1})([0-9]{1})([A-Z0-9<]{13})
    written as one character class per position, the regular-expression
    search that finds it in a line, and the extraction of its five fields. */
module TD1BangladeshFirstLine {
  import opened MrzTypes
  import opened MrzLines

  /** The number of characters the pattern matches. */
  const PATTERN_LENGTH: nat := 30

  /** One identifier per capture group, left to right. */
  const FIELD_TYPES: seq<FieldType> :=
    [DocumentType, CountryCode, DocumentNumber, DocumentNumberCheckDigit, OptionalData1]

  predicate IsDigit(ch: char) {
    '0' <= ch <= '9'
  }

  /** The class [A-Z0-9<]. */
  predicate IsMrzChar(ch: char) {
    'A' <= ch <= 'Z' || IsDigit(ch) || ch == '<'
  }

  /** The character class at position p of the pattern. The first class
      [A|C|I] is a bracket expression, so it also admits the bar itself. */
  predicate ClassAt(p: nat, ch: char): (b: bool)
    requires p < PATTERN_LENGTH
    ensures b ==> IsMrzChar(ch) || ch == '|'
    ensures 2 <= p < 5 ==> (b <==> ch == "BGD"[p - 2])
  {
    if p == 0 then ch == 'A' || ch == '|' || ch == 'C' || ch == 'I'
    else if p == 1 then IsMrzChar(ch)
    else if p == 2 then ch == 'B'
    else if p == 3 then ch == 'G'
    else if p == 4 then ch == 'D'
    else if p < 14 then IsDigit(ch)
    else if p == 14 then ch == '<'
    else if p < 17 then IsDigit(ch)
    else IsMrzChar(ch)
  }

  /** The pattern matches the whole of `w`: thirty characters, `BGD` at
      positions 2 to 4, `<` at position 14, and never a space. */
  predicate Matches(w: string): (b: bool)
    ensures b ==> |w| == PATTERN_LENGTH && w[2..5] == "BGD" && w[14] == '<'
    ensures b ==> forall i :: 0 <= i < |w| ==> w[i] != ' '
  {
    && |w| == PATTERN_LENGTH
    && forall p :: 0 <= p < PATTERN_LENGTH ==> ClassAt(p, w[p])
  }

  /** The pattern matches `s` starting at index k. */
  predicate MatchesAt(s: string, k: nat): (b: bool)
    ensures b ==> k + PATTERN_LENGTH <= |s| && s[k + 2] == 'B' && s[k + 3] == 'G' && s[k + 4] == 'D'
  {
    && k + PATTERN_LENGTH <= |s|
    && var w := s[k..k + PATTERN_LENGTH];
       assert w[2] == s[k + 2] && w[3] == s[k + 3] && w[4] == s[k + 4];
       Matches(w)
  }

  /** Regex.Match: the leftmost index at or after k where the pattern
      matches. The pattern has a fixed length and no alternatives, so the
      match found at that index is the only one starting there. */
  function Search(s: string, k: nat): (r: Option<nat>)
    ensures r.Some? ==> k <= r.value && MatchesAt(s, r.value)
    ensures r.Some? ==> forall j :: k <= j < r.value ==> !MatchesAt(s, j)
    ensures r.None? ==> forall j :: k <= j ==> !MatchesAt(s, j)
    decreases |s| - k
  {
    if k + PATTERN_LENGTH > |s| then None
    else if MatchesAt(s, k) then Some(k)
    else Search(s, k + 1)
  }

  /** The five captures of a match starting at k. */
  function Groups(s: string, k: nat): (g: seq<string>)
    requires k + PATTERN_LENGTH <= |s|
    ensures |g| == |FIELD_TYPES|
    ensures g[0] + g[1] + g[2] + g[3] + g[4] == s[k..k + PATTERN_LENGTH]
  {
    var g := [s[k..k + 2], s[k + 2..k + 5], s[k + 5..k + 16], s[k + 16..k + 17], s[k + 17..k + 30]];
    assert g[0] + g[1] + g[2] + g[3] + g[4] == s[k..k + PATTERN_LENGTH];
    g
  }

  /** `s` with every space removed. */
  function RemoveSpaces(s: string): (r: string)
    ensures forall ch :: ch in r <==> ch in s && ch != ' '
    ensures |r| <= |s|
    ensures multiset(r) == multiset(s)[' ' := 0]
  {
    if s == [] then []
    else
      assert s == [s[0]] + s[1..];
      if s[0] == ' ' then RemoveSpaces(s[1..])
      else [s[0]] + RemoveSpaces(s[1..])
  }

  /** The Fields getter as a value: Err when the line does not match,
      otherwise field i has identifier FIELD_TYPES[i] and the cleaned,
      space-free text of capture group i + 1. */
  function FirstLineFields(value: string, clean: string -> string): (r: Result<seq<Field>>)
    ensures r.Ok? <==> exists k :: MatchesAt(value, k)
    ensures r.Err? ==> r.error == LineMismatch(value)
    ensures r.Ok? ==> |r.value| == |FIELD_TYPES|
    ensures r.Ok? ==> forall i :: 0 <= i < |r.value| ==> r.value[i].fieldType == FIELD_TYPES[i] && ' ' !in r.value[i].value
    ensures r.Ok? ==> exists k: nat ::
      && MatchesAt(value, k) && (forall j :: 0 <= j < k ==> !MatchesAt(value, j))
      && (forall i :: 0 <= i < |FIELD_TYPES| ==> r.value[i].value == RemoveSpaces(clean(Groups(value, k)[i])))
  {
    match Search(value, 0)
    case None => Err(LineMismatch(value))
    case Some(k) =>
      var g := Groups(value, k);
      Ok(seq(|FIELD_TYPES|, i requires 0 <= i < |FIELD_TYPES| => Field(FIELD_TYPES[i], RemoveSpaces(clean(g[i])))))
  }

  /** The line object built from one raw line. */
  function Line(value: string, clean: string -> string): (line: MrzLine)
    ensures line.value == value && line.fieldTypes == FIELD_TYPES
    ensures Consistent(line)
  {
    MrzLine(value, FIELD_TYPES, FirstLineFields(value, clean))
  }

  /** The Fields getter: match the pattern, throw on a mismatch, then add one
      field per identifier. */
  method Fields(value: string, clean: string -> string) returns (r: Result<seq<Field>>)
    ensures r == FirstLineFields(value, clean)
  {
    var m := Search(value, 0);
    if m.None? {
      return Err(LineMismatch(value));
    }
    var groups := Groups(value, m.value);
    var fields: seq<Field> := [];
    for i := 0 to |FIELD_TYPES|
      invariant |fields| == i
      invariant forall j :: 0 <= j < i ==> fields[j] == Field(FIELD_TYPES[j], RemoveSpaces(clean(groups[j])))
    {
      fields := fields + [Field(FIELD_TYPES[i], RemoveSpaces(clean(groups[i])))];
    }
    assert fields == seq(|FIELD_TYPES|, i requires 0 <= i < |FIELD_TYPES| => Field(FIELD_TYPES[i], RemoveSpaces(clean(groups[i]))));
    r := Ok(fields);
  }

  // ---------------------------------------------------------------------
  // Properties of the grammar

  /** On a line exactly as long as the pattern, a match can only start at 0
      and then covers the whole line. */
  lemma MatchCoversThirtyCharLine(s: string)
    requires |s| == PATTERN_LENGTH
    ensures Search(s, 0).Some? ==> Search(s, 0) == Some(0)
    ensures Search(s, 0).Some? ==> var g := Groups(s, 0); g[0] + g[1] + g[2] + g[3] + g[4] == s
  {
  }

  /** The shapes of the raw captures of any match. */
  lemma CaptureShapes(s: string, k: nat)
    requires MatchesAt(s, k)
    ensures var g := Groups(s, k);
      && |g[0]| == 2 && g[0][0] in "A|CI" && IsMrzChar(g[0][1])
      && g[1] == "BGD"
      && |g[2]| == 11 && g[2][9] == '<' && (forall i :: 0 <= i < 11 && i != 9 ==> IsDigit(g[2][i]))
      && |g[3]| == 1 && IsDigit(g[3][0])
      && |g[4]| == 13 && (forall i :: 0 <= i < 13 ==> IsMrzChar(g[4][i]))
  {
    var g := Groups(s, k);
    MatchedClass(s, k, 0);
    MatchedClass(s, k, 1);
    MatchedClass(s, k, 2);
    MatchedClass(s, k, 3);
    MatchedClass(s, k, 4);
    MatchedClass(s, k, 14);
    MatchedClass(s, k, 15);
    MatchedClass(s, k, 16);
    forall i | 0 <= i < 11 && i != 9 ensures IsDigit(g[2][i]) {
      MatchedClass(s, k, 5 + i);
    }
    forall i | 0 <= i < 13 ensures IsMrzChar(g[4][i]) {
      MatchedClass(s, k, 17 + i);
    }
  }

  lemma MatchedClass(s: string, k: nat, p: nat)
    requires MatchesAt(s, k) && p < PATTERN_LENGTH
    ensures ClassAt(p, s[k + p])
  {
    assert s[k..k + PATTERN_LENGTH][p] == s[k + p];
  }

  /** The bar is accepted as a document-type letter. */
  lemma BarIsADocumentTypeLetter()
    ensures Search("|<BGD123456789<10<<<<<<<<<<<<<", 0) == Some(0)
  {
    var s := "|<BGD123456789<10<<<<<<<<<<<<<";
    forall p | 0 <= p < PATTERN_LENGTH ensures ClassAt(p, s[p]) {
    }
    assert s[0..PATTERN_LENGTH] == s;
    assert MatchesAt(s, 0);
  }

  /** Removing spaces is idempotent: the extracted values are already clean
      of spaces. */
  lemma {:induction false} RemoveSpacesIdempotent(s: string)
    ensures RemoveSpaces(RemoveSpaces(s)) == RemoveSpaces(s)
  {
    if s != [] {
      RemoveSpacesIdempotent(s[1..]);
      if s[0] != ' ' {
        assert ([s[0]] + RemoveSpaces(s[1..]))[1..] == RemoveSpaces(s[1..]);
      }
    }
  }

  /** Removing spaces works character by character: it distributes over
      concatenation, so the characters kept stay in their order. */
  lemma {:induction false} RemoveSpacesConcat(a: string, b: string)
    ensures RemoveSpaces(a + b) == RemoveSpaces(a) + RemoveSpaces(b)
  {
    if a == [] {
      assert a + b == b;
    } else {
      assert (a + b)[0] == a[0] && (a + b)[1..] == a[1..] + b;
      RemoveSpacesConcat(a[1..], b);
    }
  }

  /** A space is dropped; any other character is kept. */
  lemma RemoveSpacesOfChar(ch: char)
    ensures RemoveSpaces([ch]) == if ch == ' ' then [] else [ch]
  {
    assert [ch][0] == ch && [ch][1..] == [];
    assert RemoveSpaces([]) == [];
    assert [ch] + [] == [ch];
  }

  /** The country-code field of a matched first line holds the cleaned,
      space-free text `BGD`. */
  lemma CountryCodeIsBGD(value: string, clean: string -> string)
    requires FirstLineFields(value, clean).Ok?
    ensures FirstLineFields(value, clean).value[1] == Field(CountryCode, RemoveSpaces(clean("BGD")))
  {
    var k := Search(value, 0).value;
    CaptureShapes(value, k);
  }
}
