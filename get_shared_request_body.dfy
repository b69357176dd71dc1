/**
 * GetSharedRequestBody: the paging body of the listing requests.  `tag_text`
 * is nullable with a `null` default and is only set by the tag search; left
 * at its default it is not encoded at all.
 */
module GetSharedRequestBodySchema {
  import opened Wrappers
  import opened Ints
  import opened Json
  import opened Schema

  datatype GetSharedRequestBody = GetSharedRequestBody(
    rowUnit: Int32,
    rowStart: Int32,
    tag: Option<string>
  )

  const Fields: seq<Field> := [
    Field("row_unit", IntField),
    Field("row_start", IntField),
    Field("tag_text", OptionalString)
  ]

  function Row(b: GetSharedRequestBody): (row: seq<Scalar>)
    ensures WellTyped(Fields, row)
  {
    [IntVal(b.rowUnit), IntVal(b.rowStart), OptStrVal(b.tag)]
  }

  function FromRow(row: seq<Scalar>): (b: GetSharedRequestBody)
    requires WellTyped(Fields, row)
    ensures Row(b) == row
  {
    GetSharedRequestBody(row[0].i, row[1].i, row[2].o)
  }

  /** The object the serializer writes; RoundTrip decodes it back. */
  function Encode(b: GetSharedRequestBody): Json {
    JObj(EncodeRow(Fields, Row(b)))
  }

  /** Decoding through the class's table; anything but an object is refused as an unexpected body. */
  function Decode(j: Json): (r: Outcome<GetSharedRequestBody>)
    ensures !j.JObj? ==> r == Exn(UnexpectedBody)
  {
    match DecodeObject(Fields, j)
    case Ok(row) => Ok(FromRow(row))
    case Exn(c) => Exn(c)
  }

  /** The wire name of each property; `tag_text` may be absent or null. */
  predicate Describes(m: seq<(string, Json)>, b: GetSharedRequestBody) {
    && OnlyProperties(Fields, m)
    && CarriesNumber(m, "row_unit", b.rowUnit)
    && CarriesNumber(m, "row_start", b.rowStart)
    && CarriesOptString(m, "tag_text", b.tag)
  }

  lemma HoldsDescribes(m: seq<(string, Json)>, b: GetSharedRequestBody)
    requires OnlyProperties(Fields, m)
    requires forall i :: 0 <= i < |Fields| ==> Holds(m, Fields[i], Row(b)[i])
    ensures Describes(m, b)
  {
    assert Holds(m, Fields[0], Row(b)[0]);
    assert Holds(m, Fields[1], Row(b)[1]);
    assert Holds(m, Fields[2], Row(b)[2]);
  }

  lemma DescribesHolds(m: seq<(string, Json)>, b: GetSharedRequestBody)
    requires Describes(m, b)
    ensures forall i :: 0 <= i < |Fields| ==> Holds(m, Fields[i], Row(b)[i])
  {
    forall i | 0 <= i < |Fields| ensures Holds(m, Fields[i], Row(b)[i]) {
      assert i == 0 || i == 1 || i == 2;
    }
  }

  /** Decoding an object yields a record exactly when the object describes it. */
  lemma DecodeIff(m: seq<(string, Json)>, b: GetSharedRequestBody)
    ensures Decode(JObj(m)) == Ok(b) <==> Describes(m, b)
  {
    WiresDistinct();
    DecodeObjectHolds(Fields, m, Row(b));
    if Decode(JObj(m)) == Ok(b) {
      assert DecodeObject(Fields, JObj(m)) == Ok(Row(b));
      HoldsDescribes(m, b);
    }
    if Describes(m, b) {
      DescribesHolds(m, b);
    }
  }

  /** No two properties share a wire name. */
  lemma WiresDistinct()
    ensures DistinctWires(Fields)
  {
  }

  /** What the serializer writes decodes back to the same GetSharedRequestBody. */
  lemma RoundTrip(b: GetSharedRequestBody)
    ensures Decode(Encode(b)) == Ok(b)
  {
    WiresDistinct();
    Schema.RoundTrip(Fields, Row(b));
  }

  /** A missing required property makes decoding fail. */
  lemma MissingKeyFails(m: seq<(string, Json)>, key: string)
    requires key in {"row_unit", "row_start"}
    requires Lookup(m, key) == None
    ensures Decode(JObj(m)).Exn?
  {
    if Decode(JObj(m)).Ok? {
      DecodeIff(m, Decode(JObj(m)).value);
    }
  }


  /** The two-argument constructor call: the tag keeps its `null` default. */
  function Paging(rowUnit: Int32, rowStart: Int32): (b: GetSharedRequestBody)
    ensures b.rowUnit == rowUnit && b.rowStart == rowStart && b.tag == None
  {
    GetSharedRequestBody(rowUnit, rowStart, None)
  }

  /** The exact object a body encodes to: the tag appears only when it is set. */
  lemma EncodeLayout(b: GetSharedRequestBody)
    ensures b.tag == None ==> Encode(b) == JObj([("row_unit", JNum(b.rowUnit)), ("row_start", JNum(b.rowStart))])
    ensures b.tag.Some? ==>
              Encode(b) == JObj([("row_unit", JNum(b.rowUnit)), ("row_start", JNum(b.rowStart)),
                                 ("tag_text", JStr(b.tag.value))])
  {
    var r := Row(b);
    assert EncodeRow(Fields[3..], r[3..]) == [];
    assert EncodeRow(Fields[2..], r[2..]) == if b.tag.Some? then [("tag_text", JStr(b.tag.value))] else [];
    assert EncodeRow(Fields[1..], r[1..]) == [("row_start", JNum(b.rowStart))] + EncodeRow(Fields[2..], r[2..]);
  }

  /** A body without the tag member decodes with the tag at `null`. */
  lemma AbsentTag(m: seq<(string, Json)>)
    requires Decode(JObj(m)).Ok? && Lookup(m, "tag_text") == None
    ensures Decode(JObj(m)).value.tag == None
  {
    DecodeIff(m, Decode(JObj(m)).value);
  }

}
