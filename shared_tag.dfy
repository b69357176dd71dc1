/** SharedTag: one tag of a shared item, as the tag listings return it. */
module SharedTagSchema {
  import opened Wrappers
  import opened Ints
  import opened Json
  import opened Schema

  datatype SharedTag = SharedTag(tagText: string, tagId: Int32)

  const Fields: seq<Field> := [
    Field("tag_text", StringField),
    Field("tag_id", IntField)
  ]

  function Row(t: SharedTag): (row: seq<Scalar>)
    ensures WellTyped(Fields, row)
  {
    [StrVal(t.tagText), IntVal(t.tagId)]
  }

  function FromRow(row: seq<Scalar>): (t: SharedTag)
    requires WellTyped(Fields, row)
    ensures Row(t) == row
  {
    SharedTag(row[0].s, row[1].i)
  }

  /** The object the serializer writes; RoundTrip decodes it back. */
  function Encode(t: SharedTag): Json {
    JObj(EncodeRow(Fields, Row(t)))
  }

  /** Decoding through the class's table; anything but an object is refused as an unexpected body. */
  function Decode(j: Json): (r: Outcome<SharedTag>)
    ensures !j.JObj? ==> r == Exn(UnexpectedBody)
  {
    match DecodeObject(Fields, j)
    case Ok(row) => Ok(FromRow(row))
    case Exn(c) => Exn(c)
  }

  /** `tag_text` holds `tagText` and `tag_id` holds `tagId`; both are required. */
  predicate Describes(m: seq<(string, Json)>, t: SharedTag) {
    && OnlyProperties(Fields, m)
    && CarriesString(m, "tag_text", t.tagText)
    && CarriesNumber(m, "tag_id", t.tagId)
  }

  lemma DecodeIff(m: seq<(string, Json)>, t: SharedTag)
    ensures Decode(JObj(m)) == Ok(t) <==> Describes(m, t)
  {
    assert DistinctWires(Fields);
    DecodeObjectIff(Fields, m, Row(t));
    if Decode(JObj(m)) == Ok(t) {
      assert DecodeObject(Fields, JObj(m)) == Ok(Row(t));
    }
  }

  /** What the serializer writes decodes back to the same SharedTag. */
  lemma RoundTrip(t: SharedTag)
    ensures Decode(Encode(t)) == Ok(t)
  {
    Schema.RoundTrip(Fields, Row(t));
  }

  lemma MissingKeyFails(m: seq<(string, Json)>, key: string)
    requires key in {"tag_text", "tag_id"} && Lookup(m, key) == None
    ensures Decode(JObj(m)).Exn?
  {
    if Decode(JObj(m)).Ok? {
      DecodeIff(m, Decode(JObj(m)).value);
    }
  }

  /** A member the class does not declare is refused, even after a complete tag. */
  lemma ExtraMemberFails()
    ensures Decode(JObj([("tag_text", JStr("a")), ("tag_id", JNum(1)), ("extra", JNum(0))])) == Exn(UnknownKey("extra"))
  {
    var m := [("tag_text", JStr("a")), ("tag_id", JNum(1)), ("extra", JNum(0))];
    assert m[..2] == [("tag_text", JStr("a")), ("tag_id", JNum(1))];
    assert Readable(Fields, m[1]);
    assert OnlyProperties(Fields, m[..2][1..]);
    UnknownKeyFails(Fields, m, 2);
  }

  /** The member of the wrong kind is the exception reported, before any missing property. */
  lemma WrongKindFirst()
    ensures Decode(JObj([("tag_id", JBool(true))])) == Exn(UnexpectedValue("tag_id"))
  {
    var m := [("tag_id", JBool(true))];
    assert IndexOf(Fields, "tag_id") == Some(1);
    FirstFailure(Fields, m, 0);
  }

  /** Of two `tag_id` members, the later one is the one decoded. */
  lemma LaterTagIdWins()
    ensures Decode(JObj([("tag_id", JNum(1)), ("tag_text", JStr("a")), ("tag_id", JNum(2))])) == Ok(SharedTag("a", 2))
  {
    var m := [("tag_id", JNum(1)), ("tag_text", JStr("a")), ("tag_id", JNum(2))];
    assert Lookup(m, "tag_id") == Some(JNum(2)) by { LookupAt(m, 2); }
    assert Lookup(m, "tag_text") == Some(JStr("a")) by { LookupAt(m, 1); }
    DecodeIff(m, SharedTag("a", 2));
  }

  /** A numeral in a string is read as the number it spells. */
  lemma QuotedTagId()
    ensures Decode(JObj([("tag_text", JStr("a")), ("tag_id", JStr("5"))])) == Ok(SharedTag("a", 5))
  {
    var m := [("tag_text", JStr("a")), ("tag_id", JStr("5"))];
    StringLongSerializer.RoundTrip(5);
    assert StringLongSerializer.Serialize(5) == "5";
    assert Lookup(m, "tag_id") == Some(JStr("5")) by { LookupAt(m, 1); }
    DecodeIff(m, SharedTag("a", 5));
  }
}
