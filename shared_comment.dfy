/**
 * SharedComment: one comment left on a shared item.  All properties are required.
 */
module SharedCommentSchema {
  import opened Wrappers
  import opened Ints
  import opened Json
  import opened Schema

  datatype SharedComment = SharedComment(
    commentId: Int32,
    level: Int32,
    userAlias: string,
    sharedId: Int32,
    userId: Int32,
    comment: string,
    regDate: string
  )

  const Fields: seq<Field> := [
    Field("comment_id", IntField),
    Field("level", IntField),
    Field("user_alias", StringField),
    Field("shared_id", IntField),
    Field("user_id", IntField),
    Field("comment", StringField),
    Field("reg_dt", StringField)
  ]

  function Row(c: SharedComment): (row: seq<Scalar>)
    ensures WellTyped(Fields, row)
  {
    [IntVal(c.commentId), IntVal(c.level), StrVal(c.userAlias), IntVal(c.sharedId),
     IntVal(c.userId), StrVal(c.comment), StrVal(c.regDate)]
  }

  function FromRow(row: seq<Scalar>): (c: SharedComment)
    requires WellTyped(Fields, row)
    ensures Row(c) == row
  {
    SharedComment(row[0].i, row[1].i, row[2].s, row[3].i, row[4].i, row[5].s, row[6].s)
  }

  /** The object the serializer writes; RoundTrip decodes it back. */
  function Encode(c: SharedComment): Json {
    JObj(EncodeRow(Fields, Row(c)))
  }

  /** Decoding through the class's table; anything but an object is refused as an unexpected body. */
  function Decode(j: Json): (r: Outcome<SharedComment>)
    ensures !j.JObj? ==> r == Exn(UnexpectedBody)
  {
    match DecodeObject(Fields, j)
    case Ok(row) => Ok(FromRow(row))
    case Exn(c) => Exn(c)
  }

  /** The wire name of each property; all of them are required. */
  predicate Describes(m: seq<(string, Json)>, c: SharedComment) {
    && OnlyProperties(Fields, m)
    && CarriesNumber(m, "comment_id", c.commentId)
    && CarriesNumber(m, "level", c.level)
    && CarriesString(m, "user_alias", c.userAlias)
    && CarriesNumber(m, "shared_id", c.sharedId)
    && CarriesNumber(m, "user_id", c.userId)
    && CarriesString(m, "comment", c.comment)
    && CarriesString(m, "reg_dt", c.regDate)
  }

  lemma HoldsDescribes(m: seq<(string, Json)>, c: SharedComment)
    requires OnlyProperties(Fields, m)
    requires forall i :: 0 <= i < |Fields| ==> Holds(m, Fields[i], Row(c)[i])
    ensures Describes(m, c)
  {
    assert Holds(m, Fields[0], Row(c)[0]);
    assert Holds(m, Fields[1], Row(c)[1]);
    assert Holds(m, Fields[2], Row(c)[2]);
    assert Holds(m, Fields[3], Row(c)[3]);
    assert Holds(m, Fields[4], Row(c)[4]);
    assert Holds(m, Fields[5], Row(c)[5]);
    assert Holds(m, Fields[6], Row(c)[6]);
  }

  lemma DescribesHolds(m: seq<(string, Json)>, c: SharedComment)
    requires Describes(m, c)
    ensures forall i :: 0 <= i < |Fields| ==> Holds(m, Fields[i], Row(c)[i])
  {
    forall i | 0 <= i < |Fields| ensures Holds(m, Fields[i], Row(c)[i]) {
      assert i == 0 || i == 1 || i == 2 || i == 3 || i == 4 || i == 5 || i == 6;
    }
  }

  /** Decoding an object yields a record exactly when the object describes it. */
  lemma DecodeIff(m: seq<(string, Json)>, c: SharedComment)
    ensures Decode(JObj(m)) == Ok(c) <==> Describes(m, c)
  {
    WiresDistinct();
    DecodeObjectHolds(Fields, m, Row(c));
    if Decode(JObj(m)) == Ok(c) {
      assert DecodeObject(Fields, JObj(m)) == Ok(Row(c));
      HoldsDescribes(m, c);
    }
    if Describes(m, c) {
      DescribesHolds(m, c);
    }
  }

  /** No two properties share a wire name. */
  lemma WiresDistinct()
    ensures DistinctWires(Fields)
  {
    forall i, j | 0 <= i < j < |Fields| ensures Fields[i].wire != Fields[j].wire {
      assert i == 0 || i == 1 || i == 2 || i == 3 || i == 4 || i == 5 || i == 6;
    }
  }

  /** What the serializer writes decodes back to the same SharedComment. */
  lemma RoundTrip(c: SharedComment)
    ensures Decode(Encode(c)) == Ok(c)
  {
    WiresDistinct();
    Schema.RoundTrip(Fields, Row(c));
  }

  /** A missing required property makes decoding fail. */
  lemma MissingKeyFails(m: seq<(string, Json)>, key: string)
    requires key in {"comment_id", "level", "user_alias", "shared_id", "user_id", "comment", "reg_dt"}
    requires Lookup(m, key) == None
    ensures Decode(JObj(m)).Exn?
  {
    if Decode(JObj(m)).Ok? {
      DecodeIff(m, Decode(JObj(m)).value);
    }
  }

}
