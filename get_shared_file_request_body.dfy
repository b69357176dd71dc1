/**
 * GetSharedFileRequestBody: the body naming one file of a shared item.
 */
module GetSharedFileRequestBodySchema {
  import opened Wrappers
  import opened Ints
  import opened Json
  import opened Schema

  datatype GetSharedFileRequestBody = GetSharedFileRequestBody(
    sharedId: Int32,
    fileName: string
  )

  const Fields: seq<Field> := [
    Field("shared_id", IntField),
    Field("file_name", StringField)
  ]

  function Row(b: GetSharedFileRequestBody): (row: seq<Scalar>)
    ensures WellTyped(Fields, row)
  {
    [IntVal(b.sharedId), StrVal(b.fileName)]
  }

  function FromRow(row: seq<Scalar>): (b: GetSharedFileRequestBody)
    requires WellTyped(Fields, row)
    ensures Row(b) == row
  {
    GetSharedFileRequestBody(row[0].i, row[1].s)
  }

  /** The object the serializer writes; RoundTrip decodes it back. */
  function Encode(b: GetSharedFileRequestBody): Json {
    JObj(EncodeRow(Fields, Row(b)))
  }

  /** Decoding through the class's table; anything but an object is refused as an unexpected body. */
  function Decode(j: Json): (r: Outcome<GetSharedFileRequestBody>)
    ensures !j.JObj? ==> r == Exn(UnexpectedBody)
  {
    match DecodeObject(Fields, j)
    case Ok(row) => Ok(FromRow(row))
    case Exn(c) => Exn(c)
  }

  /** The wire name of each property; both are required. */
  predicate Describes(m: seq<(string, Json)>, b: GetSharedFileRequestBody) {
    && OnlyProperties(Fields, m)
    && CarriesNumber(m, "shared_id", b.sharedId)
    && CarriesString(m, "file_name", b.fileName)
  }

  lemma HoldsDescribes(m: seq<(string, Json)>, b: GetSharedFileRequestBody)
    requires OnlyProperties(Fields, m)
    requires forall i :: 0 <= i < |Fields| ==> Holds(m, Fields[i], Row(b)[i])
    ensures Describes(m, b)
  {
    assert Holds(m, Fields[0], Row(b)[0]);
    assert Holds(m, Fields[1], Row(b)[1]);
  }

  lemma DescribesHolds(m: seq<(string, Json)>, b: GetSharedFileRequestBody)
    requires Describes(m, b)
    ensures forall i :: 0 <= i < |Fields| ==> Holds(m, Fields[i], Row(b)[i])
  {
    forall i | 0 <= i < |Fields| ensures Holds(m, Fields[i], Row(b)[i]) {
      assert i == 0 || i == 1;
    }
  }

  /** Decoding an object yields a record exactly when the object describes it. */
  lemma DecodeIff(m: seq<(string, Json)>, b: GetSharedFileRequestBody)
    ensures Decode(JObj(m)) == Ok(b) <==> Describes(m, b)
  {
    WiresDistinct();
    DecodeObjectHolds(Fields, m, Row(b));
    if Decode(JObj(m)) == Ok(b) {
      assert DecodeObject(Fields, JObj(m)) == Ok(Row(b));
      HoldsDescribes(m, b);
    }
    if Describes(m, b) {
      DescribesHolds(m, b);
    }
  }

  /** No two properties share a wire name. */
  lemma WiresDistinct()
    ensures DistinctWires(Fields)
  {
  }

  /** What the serializer writes decodes back to the same GetSharedFileRequestBody. */
  lemma RoundTrip(b: GetSharedFileRequestBody)
    ensures Decode(Encode(b)) == Ok(b)
  {
    WiresDistinct();
    Schema.RoundTrip(Fields, Row(b));
  }

  /** A missing required property makes decoding fail. */
  lemma MissingKeyFails(m: seq<(string, Json)>, key: string)
    requires key in {"shared_id", "file_name"}
    requires Lookup(m, key) == None
    ensures Decode(JObj(m)).Exn?
  {
    if Decode(JObj(m)).Ok? {
      DecodeIff(m, Decode(JObj(m)).value);
    }
  }


  /** The exact object a body encodes to. */
  lemma EncodeLayout(b: GetSharedFileRequestBody)
    ensures Encode(b) == JObj([("shared_id", JNum(b.sharedId)), ("file_name", JStr(b.fileName))])
  {
    var r := Row(b);
    assert EncodeRow(Fields[2..], r[2..]) == [];
    assert EncodeRow(Fields[1..], r[1..]) == [("file_name", JStr(b.fileName))];
  }

}
