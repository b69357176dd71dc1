/**
 * BaseShared: the summary of one shared view, block or moreblock, as the
 * listings and the tag search return it.  `view_name` and `block_name` are
 * nullable with a `null` default: which one the service fills depends on the
 * kind of collection queried.  The dates stay raw strings.
 */
module BaseSharedSchema {
  import opened Wrappers
  import opened Ints
  import opened Json
  import opened Schema

  datatype BaseShared = BaseShared(
    longDescription: string,
    updateDate: string,
    sharedId: Int32,
    userAlias: string,
    shortDescription: string,
    recommend: Int32,
    registerDate: string,
    viewName: Option<string>,
    downloadCount: Int32,
    fileSequence: string,
    likeCount: Int32,
    commentCount: Int32,
    imagesSequence: string,
    uploaderId: Int32,
    blockName: Option<string>
  )

  const Fields: seq<Field> := [
    Field("long_desc", StringField),
    Field("update_dt", StringField),
    Field("shared_id", IntField),
    Field("user_alias", StringField),
    Field("short_desc", StringField),
    Field("recommend", IntField),
    Field("reg_dt", StringField),
    Field("view_name", OptionalString),
    Field("down_cnt", IntField),
    Field("file_seq", StringField),
    Field("like_cnt", IntField),
    Field("comment_cnt", IntField),
    Field("images_seq", StringField),
    Field("uploader_id", IntField),
    Field("block_name", OptionalString)
  ]

  function Row(b: BaseShared): (row: seq<Scalar>)
    ensures WellTyped(Fields, row)
  {
    [StrVal(b.longDescription), StrVal(b.updateDate), IntVal(b.sharedId), StrVal(b.userAlias),
     StrVal(b.shortDescription), IntVal(b.recommend), StrVal(b.registerDate),
     OptStrVal(b.viewName), IntVal(b.downloadCount), StrVal(b.fileSequence), IntVal(b.likeCount),
     IntVal(b.commentCount), StrVal(b.imagesSequence), IntVal(b.uploaderId), OptStrVal(b.blockName)]
  }

  function FromRow(row: seq<Scalar>): (b: BaseShared)
    requires WellTyped(Fields, row)
    ensures Row(b) == row
  {
    BaseShared(row[0].s, row[1].s, row[2].i, row[3].s, row[4].s, row[5].i, row[6].s, row[7].o,
               row[8].i, row[9].s, row[10].i, row[11].i, row[12].s, row[13].i, row[14].o)
  }

  /** The object the serializer writes; RoundTrip decodes it back. */
  function Encode(b: BaseShared): Json {
    JObj(EncodeRow(Fields, Row(b)))
  }

  /** Decoding through the class's table; anything but an object is refused as an unexpected body. */
  function Decode(j: Json): (r: Outcome<BaseShared>)
    ensures !j.JObj? ==> r == Exn(UnexpectedBody)
  {
    match DecodeObject(Fields, j)
    case Ok(row) => Ok(FromRow(row))
    case Exn(c) => Exn(c)
  }

  /** The wire name of each property; every one but `view_name` and `block_name` is required. */
  predicate Describes(m: seq<(string, Json)>, b: BaseShared) {
    && OnlyProperties(Fields, m)
    && CarriesString(m, "long_desc", b.longDescription)
    && CarriesString(m, "update_dt", b.updateDate)
    && CarriesNumber(m, "shared_id", b.sharedId)
    && CarriesString(m, "user_alias", b.userAlias)
    && CarriesString(m, "short_desc", b.shortDescription)
    && CarriesNumber(m, "recommend", b.recommend)
    && CarriesString(m, "reg_dt", b.registerDate)
    && CarriesOptString(m, "view_name", b.viewName)
    && CarriesNumber(m, "down_cnt", b.downloadCount)
    && CarriesString(m, "file_seq", b.fileSequence)
    && CarriesNumber(m, "like_cnt", b.likeCount)
    && CarriesNumber(m, "comment_cnt", b.commentCount)
    && CarriesString(m, "images_seq", b.imagesSequence)
    && CarriesNumber(m, "uploader_id", b.uploaderId)
    && CarriesOptString(m, "block_name", b.blockName)
  }

  lemma HoldsFirst(m: seq<(string, Json)>, b: BaseShared)
    requires forall i :: 0 <= i < |Fields| ==> Holds(m, Fields[i], Row(b)[i])
    ensures CarriesString(m, "long_desc", b.longDescription)
    ensures CarriesString(m, "update_dt", b.updateDate)
    ensures CarriesNumber(m, "shared_id", b.sharedId)
    ensures CarriesString(m, "user_alias", b.userAlias)
    ensures CarriesString(m, "short_desc", b.shortDescription)
    ensures CarriesNumber(m, "recommend", b.recommend)
    ensures CarriesString(m, "reg_dt", b.registerDate)
    ensures CarriesOptString(m, "view_name", b.viewName)
  {
    assert Holds(m, Fields[0], Row(b)[0]);
    assert Holds(m, Fields[1], Row(b)[1]);
    assert Holds(m, Fields[2], Row(b)[2]);
    assert Holds(m, Fields[3], Row(b)[3]);
    assert Holds(m, Fields[4], Row(b)[4]);
    assert Holds(m, Fields[5], Row(b)[5]);
    assert Holds(m, Fields[6], Row(b)[6]);
    assert Holds(m, Fields[7], Row(b)[7]);
  }

  lemma HoldsRest(m: seq<(string, Json)>, b: BaseShared)
    requires forall i :: 0 <= i < |Fields| ==> Holds(m, Fields[i], Row(b)[i])
    ensures CarriesNumber(m, "down_cnt", b.downloadCount)
    ensures CarriesString(m, "file_seq", b.fileSequence)
    ensures CarriesNumber(m, "like_cnt", b.likeCount)
    ensures CarriesNumber(m, "comment_cnt", b.commentCount)
    ensures CarriesString(m, "images_seq", b.imagesSequence)
    ensures CarriesNumber(m, "uploader_id", b.uploaderId)
    ensures CarriesOptString(m, "block_name", b.blockName)
  {
    assert Holds(m, Fields[8], Row(b)[8]);
    assert Holds(m, Fields[9], Row(b)[9]);
    assert Holds(m, Fields[10], Row(b)[10]);
    assert Holds(m, Fields[11], Row(b)[11]);
    assert Holds(m, Fields[12], Row(b)[12]);
    assert Holds(m, Fields[13], Row(b)[13]);
    assert Holds(m, Fields[14], Row(b)[14]);
  }

  lemma HoldsDescribes(m: seq<(string, Json)>, b: BaseShared)
    requires OnlyProperties(Fields, m)
    requires forall i :: 0 <= i < |Fields| ==> Holds(m, Fields[i], Row(b)[i])
    ensures Describes(m, b)
  {
    HoldsFirst(m, b);
    HoldsRest(m, b);
  }

  lemma FirstHold(m: seq<(string, Json)>, b: BaseShared)
    requires CarriesString(m, "long_desc", b.longDescription)
    requires CarriesString(m, "update_dt", b.updateDate)
    requires CarriesNumber(m, "shared_id", b.sharedId)
    requires CarriesString(m, "user_alias", b.userAlias)
    requires CarriesString(m, "short_desc", b.shortDescription)
    requires CarriesNumber(m, "recommend", b.recommend)
    requires CarriesString(m, "reg_dt", b.registerDate)
    requires CarriesOptString(m, "view_name", b.viewName)
    ensures forall i :: 0 <= i < 8 ==> Holds(m, Fields[i], Row(b)[i])
  {
    forall i | 0 <= i < 8 ensures Holds(m, Fields[i], Row(b)[i]) {
      assert i == 0 || i == 1 || i == 2 || i == 3 || i == 4 || i == 5 || i == 6 || i == 7;
    }
  }

  lemma RestHold(m: seq<(string, Json)>, b: BaseShared)
    requires CarriesNumber(m, "down_cnt", b.downloadCount)
    requires CarriesString(m, "file_seq", b.fileSequence)
    requires CarriesNumber(m, "like_cnt", b.likeCount)
    requires CarriesNumber(m, "comment_cnt", b.commentCount)
    requires CarriesString(m, "images_seq", b.imagesSequence)
    requires CarriesNumber(m, "uploader_id", b.uploaderId)
    requires CarriesOptString(m, "block_name", b.blockName)
    ensures forall i :: 8 <= i < |Fields| ==> Holds(m, Fields[i], Row(b)[i])
  {
    forall i | 8 <= i < |Fields| ensures Holds(m, Fields[i], Row(b)[i]) {
      assert i == 8 || i == 9 || i == 10 || i == 11 || i == 12 || i == 13 || i == 14;
    }
  }

  lemma DescribesHolds(m: seq<(string, Json)>, b: BaseShared)
    requires Describes(m, b)
    ensures forall i :: 0 <= i < |Fields| ==> Holds(m, Fields[i], Row(b)[i])
  {
    FirstHold(m, b);
    RestHold(m, b);
  }

  /** Decoding an object yields a record exactly when the object describes it. */
  lemma DecodeIff(m: seq<(string, Json)>, b: BaseShared)
    ensures Decode(JObj(m)) == Ok(b) <==> Describes(m, b)
  {
    WiresDistinct();
    DecodeObjectHolds(Fields, m, Row(b));
    if Decode(JObj(m)) == Ok(b) {
      assert DecodeObject(Fields, JObj(m)) == Ok(Row(b));
      HoldsDescribes(m, b);
    }
    if Describes(m, b) {
      DescribesHolds(m, b);
    }
  }

  /** No two properties share a wire name. */
  lemma WiresDistinct()
    ensures DistinctWires(Fields)
  {
    forall i, j | 0 <= i < j < |Fields| ensures Fields[i].wire != Fields[j].wire {
      assert i == 0 || i == 1 || i == 2 || i == 3 || i == 4 || i == 5 || i == 6 || i == 7 ||
          i == 8 || i == 9 || i == 10 || i == 11 || i == 12 || i == 13 || i == 14;
    }
  }

  /** What the serializer writes decodes back to the same BaseShared. */
  lemma RoundTrip(b: BaseShared)
    ensures Decode(Encode(b)) == Ok(b)
  {
    WiresDistinct();
    Schema.RoundTrip(Fields, Row(b));
  }

  /** A missing required property makes decoding fail. */
  lemma MissingKeyFails(m: seq<(string, Json)>, key: string)
    requires key in {"long_desc", "update_dt", "shared_id", "user_alias", "short_desc", "recommend", "reg_dt", "down_cnt", "file_seq", "like_cnt", "comment_cnt", "images_seq", "uploader_id"}
    requires Lookup(m, key) == None
    ensures Decode(JObj(m)).Exn?
  {
    if Decode(JObj(m)).Ok? {
      DecodeIff(m, Decode(JObj(m)).value);
    }
  }


  /** An absent `view_name` or `block_name` decodes to `null`. */
  lemma AbsentNames(m: seq<(string, Json)>)
    requires Decode(JObj(m)).Ok?
    ensures Lookup(m, "view_name") == None ==> Decode(JObj(m)).value.viewName == None
    ensures Lookup(m, "block_name") == None ==> Decode(JObj(m)).value.blockName == None
  {
    DecodeIff(m, Decode(JObj(m)).value);
  }

  /**
   * A view summary: `shared_id` 42, `view_name` "Foo" and no `block_name`
   * decode to a record with that id and name and no block name.
   */
  lemma ViewSummary(m: seq<(string, Json)>)
    requires Lookup(m, "shared_id") == Some(JNum(42))
    requires Lookup(m, "view_name") == Some(JStr("Foo"))
    requires Lookup(m, "block_name") == None
    requires Decode(JObj(m)).Ok?
    ensures Decode(JObj(m)).value.sharedId == 42
    ensures Decode(JObj(m)).value.viewName == Some("Foo")
    ensures Decode(JObj(m)).value.blockName == None
  {
    var b := Decode(JObj(m)).value;
    DecodeIff(m, b);
    DescribedView(m, b);
  }

  lemma DescribedView(m: seq<(string, Json)>, b: BaseShared)
    requires CarriesNumber(m, "shared_id", b.sharedId)
    requires CarriesOptString(m, "view_name", b.viewName)
    requires CarriesOptString(m, "block_name", b.blockName)
    requires Lookup(m, "shared_id") == Some(JNum(42))
    requires Lookup(m, "view_name") == Some(JStr("Foo"))
    requires Lookup(m, "block_name") == None
    ensures b.sharedId == 42 && b.viewName == Some("Foo") && b.blockName == None
  {
  }

  /** A count beyond the 32-bit range is refused. */
  lemma WideCountFails(m: seq<(string, Json)>)
    requires Lookup(m, "down_cnt") == Some(JNum(Int32Max + 1))
    ensures Decode(JObj(m)).Exn?
  {
    if Decode(JObj(m)).Ok? {
      DecodeIff(m, Decode(JObj(m)).value);
    }
  }

}
