/** The Bangladeshi TD1 document: the Bangladesh first-line grammar followed
    by the ordinary TD1 second and third lines, reporting the public type TD1. */
module TD1BangladeshMrzCode {
  import opened MrzTypes
  import opened MrzLines
  import TD1BangladeshFirstLine

  /** The public type: the same as a plain TD1 code. */
  function Type(): (t: CodeType)
    ensures t == CodeType.TD1
  {
    CodeType.TD1
  }

  /** Lines: the first raw line under the Bangladesh grammar, raw element 1
      as a TD1 second line and the last raw element as a TD1 third line.
      First() throws on no lines and ElementAt(1) on a single line. */
  function Lines(rawLines: seq<string>, c: Collaborators): (r: Result<seq<MrzLine>>)
    ensures r.Ok? <==> |rawLines| >= 2
    ensures r.Ok? ==> |r.value| == 3
    ensures r.Ok? ==> r.value[0].value == rawLines[0]
    ensures r.Ok? ==> r.value[0].fieldTypes == TD1BangladeshFirstLine.FIELD_TYPES && Consistent(r.value[0])
  {
    if |rawLines| == 0 then Err(SequenceEmpty)
    else if |rawLines| < 2 then Err(IndexOutOfRange)
    else
      Ok([
        TD1BangladeshFirstLine.Line(rawLines[0], c.clean),
        c.secondLine(rawLines[1]),
        c.thirdLine(rawLines[|rawLines| - 1])
      ])
  }
}
