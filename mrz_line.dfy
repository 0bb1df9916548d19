/** The line abstraction a document is composed of, and the collaborators
    whose code is not part of this model, passed in as functions. */
module MrzLines {
  import opened MrzTypes

  /** One line of a code as a document uses it: the raw text it wraps, the
      field identifiers its grammar declares, and the outcome of extracting
      its fields (an Err where the extraction throws). */
  datatype MrzLine = MrzLine(value: string, fieldTypes: seq<FieldType>, fields: Result<seq<Field>>)

  /** A line whose successful extraction yields exactly its declared
      identifiers, in order. */
  predicate Consistent(line: MrzLine) {
    line.fields.Ok? ==>
      && |line.fields.value| == |line.fieldTypes|
      && forall i :: 0 <= i < |line.fieldTypes| ==> line.fields.value[i].fieldType == line.fieldTypes[i]
  }

  /** The collaborators the core calls but whose code is not modelled:
      - clean: the ValueCleaner applied to a raw capture;
      - secondLine, thirdLine: the TD1SecondLine and TD1ThirdLine line types;
      - otherLines: the Lines of every code class other than the Bangladesh
        TD1 one (an Err where building them throws);
      - remap: the ChangeBackwardFieldTypeToCurrent overrides of those classes. */
  datatype Collaborators = Collaborators(
    clean: string -> string,
    secondLine: string -> MrzLine,
    thirdLine: string -> MrzLine,
    otherLines: (CodeClass, seq<string>) -> Result<seq<MrzLine>>,
    remap: (CodeClass, FieldType) -> FieldType
  )
}
