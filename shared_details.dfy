/**
 * SharedDetails: the full description of one shared item.  Unlike BaseShared
 * its counters and ids are Longs, it has no `view_name`, and only
 * `block_name` is nullable.
 */
module SharedDetailsSchema {
  import opened Wrappers
  import opened Ints
  import opened Json
  import opened Schema

  datatype SharedDetails = SharedDetails(
    longDescription: string,
    updateDate: string,
    sharedID: Int64,
    userAlias: string,
    shortDescription: string,
    recommend: Int64,
    regDate: string,
    downloadCount: Int64,
    fileSeq: string,
    commentCount: Int64,
    likeCount: Int64,
    imagesSeq: string,
    uploaderID: Int64,
    blockName: Option<string>
  )

  const Fields: seq<Field> := [
    Field("long_desc", StringField),
    Field("update_dt", StringField),
    Field("shared_id", LongField),
    Field("user_alias", StringField),
    Field("short_desc", StringField),
    Field("recommend", LongField),
    Field("reg_dt", StringField),
    Field("down_cnt", LongField),
    Field("file_seq", StringField),
    Field("comment_cnt", LongField),
    Field("like_cnt", LongField),
    Field("images_seq", StringField),
    Field("uploader_id", LongField),
    Field("block_name", OptionalString)
  ]

  function Row(d: SharedDetails): (row: seq<Scalar>)
    ensures WellTyped(Fields, row)
  {
    [StrVal(d.longDescription), StrVal(d.updateDate), LongVal(d.sharedID), StrVal(d.userAlias),
     StrVal(d.shortDescription), LongVal(d.recommend), StrVal(d.regDate), LongVal(d.downloadCount),
     StrVal(d.fileSeq), LongVal(d.commentCount), LongVal(d.likeCount), StrVal(d.imagesSeq),
     LongVal(d.uploaderID), OptStrVal(d.blockName)]
  }

  function FromRow(row: seq<Scalar>): (d: SharedDetails)
    requires WellTyped(Fields, row)
    ensures Row(d) == row
  {
    SharedDetails(row[0].s, row[1].s, row[2].l, row[3].s, row[4].s, row[5].l, row[6].s, row[7].l,
                  row[8].s, row[9].l, row[10].l, row[11].s, row[12].l, row[13].o)
  }

  /** The object the serializer writes; RoundTrip decodes it back. */
  function Encode(d: SharedDetails): Json {
    JObj(EncodeRow(Fields, Row(d)))
  }

  /** Decoding through the class's table; anything but an object is refused as an unexpected body. */
  function Decode(j: Json): (r: Outcome<SharedDetails>)
    ensures !j.JObj? ==> r == Exn(UnexpectedBody)
  {
    match DecodeObject(Fields, j)
    case Ok(row) => Ok(FromRow(row))
    case Exn(c) => Exn(c)
  }

  /** The wire name of each property; every one but `block_name` is required. */
  predicate Describes(m: seq<(string, Json)>, d: SharedDetails) {
    && OnlyProperties(Fields, m)
    && CarriesString(m, "long_desc", d.longDescription)
    && CarriesString(m, "update_dt", d.updateDate)
    && CarriesNumber(m, "shared_id", d.sharedID)
    && CarriesString(m, "user_alias", d.userAlias)
    && CarriesString(m, "short_desc", d.shortDescription)
    && CarriesNumber(m, "recommend", d.recommend)
    && CarriesString(m, "reg_dt", d.regDate)
    && CarriesNumber(m, "down_cnt", d.downloadCount)
    && CarriesString(m, "file_seq", d.fileSeq)
    && CarriesNumber(m, "comment_cnt", d.commentCount)
    && CarriesNumber(m, "like_cnt", d.likeCount)
    && CarriesString(m, "images_seq", d.imagesSeq)
    && CarriesNumber(m, "uploader_id", d.uploaderID)
    && CarriesOptString(m, "block_name", d.blockName)
  }

  lemma HoldsFirst(m: seq<(string, Json)>, d: SharedDetails)
    requires forall i :: 0 <= i < |Fields| ==> Holds(m, Fields[i], Row(d)[i])
    ensures CarriesString(m, "long_desc", d.longDescription)
    ensures CarriesString(m, "update_dt", d.updateDate)
    ensures CarriesNumber(m, "shared_id", d.sharedID)
    ensures CarriesString(m, "user_alias", d.userAlias)
    ensures CarriesString(m, "short_desc", d.shortDescription)
    ensures CarriesNumber(m, "recommend", d.recommend)
    ensures CarriesString(m, "reg_dt", d.regDate)
  {
    assert Holds(m, Fields[0], Row(d)[0]);
    assert Holds(m, Fields[1], Row(d)[1]);
    assert Holds(m, Fields[2], Row(d)[2]);
    assert Holds(m, Fields[3], Row(d)[3]);
    assert Holds(m, Fields[4], Row(d)[4]);
    assert Holds(m, Fields[5], Row(d)[5]);
    assert Holds(m, Fields[6], Row(d)[6]);
  }

  lemma HoldsRest(m: seq<(string, Json)>, d: SharedDetails)
    requires forall i :: 0 <= i < |Fields| ==> Holds(m, Fields[i], Row(d)[i])
    ensures CarriesNumber(m, "down_cnt", d.downloadCount)
    ensures CarriesString(m, "file_seq", d.fileSeq)
    ensures CarriesNumber(m, "comment_cnt", d.commentCount)
    ensures CarriesNumber(m, "like_cnt", d.likeCount)
    ensures CarriesString(m, "images_seq", d.imagesSeq)
    ensures CarriesNumber(m, "uploader_id", d.uploaderID)
    ensures CarriesOptString(m, "block_name", d.blockName)
  {
    assert Holds(m, Fields[7], Row(d)[7]);
    assert Holds(m, Fields[8], Row(d)[8]);
    assert Holds(m, Fields[9], Row(d)[9]);
    assert Holds(m, Fields[10], Row(d)[10]);
    assert Holds(m, Fields[11], Row(d)[11]);
    assert Holds(m, Fields[12], Row(d)[12]);
    assert Holds(m, Fields[13], Row(d)[13]);
  }

  lemma HoldsDescribes(m: seq<(string, Json)>, d: SharedDetails)
    requires OnlyProperties(Fields, m)
    requires forall i :: 0 <= i < |Fields| ==> Holds(m, Fields[i], Row(d)[i])
    ensures Describes(m, d)
  {
    HoldsFirst(m, d);
    HoldsRest(m, d);
  }

  lemma FirstHold(m: seq<(string, Json)>, d: SharedDetails)
    requires CarriesString(m, "long_desc", d.longDescription)
    requires CarriesString(m, "update_dt", d.updateDate)
    requires CarriesNumber(m, "shared_id", d.sharedID)
    requires CarriesString(m, "user_alias", d.userAlias)
    requires CarriesString(m, "short_desc", d.shortDescription)
    requires CarriesNumber(m, "recommend", d.recommend)
    requires CarriesString(m, "reg_dt", d.regDate)
    ensures forall i :: 0 <= i < 7 ==> Holds(m, Fields[i], Row(d)[i])
  {
    forall i | 0 <= i < 7 ensures Holds(m, Fields[i], Row(d)[i]) {
      assert i == 0 || i == 1 || i == 2 || i == 3 || i == 4 || i == 5 || i == 6;
    }
  }

  lemma RestHold(m: seq<(string, Json)>, d: SharedDetails)
    requires CarriesNumber(m, "down_cnt", d.downloadCount)
    requires CarriesString(m, "file_seq", d.fileSeq)
    requires CarriesNumber(m, "comment_cnt", d.commentCount)
    requires CarriesNumber(m, "like_cnt", d.likeCount)
    requires CarriesString(m, "images_seq", d.imagesSeq)
    requires CarriesNumber(m, "uploader_id", d.uploaderID)
    requires CarriesOptString(m, "block_name", d.blockName)
    ensures forall i :: 7 <= i < |Fields| ==> Holds(m, Fields[i], Row(d)[i])
  {
    forall i | 7 <= i < |Fields| ensures Holds(m, Fields[i], Row(d)[i]) {
      assert i == 7 || i == 8 || i == 9 || i == 10 || i == 11 || i == 12 || i == 13;
    }
  }

  lemma DescribesHolds(m: seq<(string, Json)>, d: SharedDetails)
    requires Describes(m, d)
    ensures forall i :: 0 <= i < |Fields| ==> Holds(m, Fields[i], Row(d)[i])
  {
    FirstHold(m, d);
    RestHold(m, d);
  }

  /** Decoding an object yields a record exactly when the object describes it. */
  lemma DecodeIff(m: seq<(string, Json)>, d: SharedDetails)
    ensures Decode(JObj(m)) == Ok(d) <==> Describes(m, d)
  {
    WiresDistinct();
    DecodeObjectHolds(Fields, m, Row(d));
    if Decode(JObj(m)) == Ok(d) {
      assert DecodeObject(Fields, JObj(m)) == Ok(Row(d));
      HoldsDescribes(m, d);
    }
    if Describes(m, d) {
      DescribesHolds(m, d);
    }
  }

  /** No two properties share a wire name. */
  lemma WiresDistinct()
    ensures DistinctWires(Fields)
  {
    forall i, j | 0 <= i < j < |Fields| ensures Fields[i].wire != Fields[j].wire {
      assert i == 0 || i == 1 || i == 2 || i == 3 || i == 4 || i == 5 || i == 6 || i == 7 ||
          i == 8 || i == 9 || i == 10 || i == 11 || i == 12 || i == 13;
    }
  }

  /** What the serializer writes decodes back to the same SharedDetails. */
  lemma RoundTrip(d: SharedDetails)
    ensures Decode(Encode(d)) == Ok(d)
  {
    WiresDistinct();
    Schema.RoundTrip(Fields, Row(d));
  }

  /** A missing required property makes decoding fail. */
  lemma MissingKeyFails(m: seq<(string, Json)>, key: string)
    requires key in {"long_desc", "update_dt", "shared_id", "user_alias", "short_desc", "recommend", "reg_dt", "down_cnt", "file_seq", "comment_cnt", "like_cnt", "images_seq", "uploader_id"}
    requires Lookup(m, key) == None
    ensures Decode(JObj(m)).Exn?
  {
    if Decode(JObj(m)).Ok? {
      DecodeIff(m, Decode(JObj(m)).value);
    }
  }


  /** An absent `block_name` decodes to `null`. */
  lemma AbsentBlockName(m: seq<(string, Json)>)
    requires Decode(JObj(m)).Ok? && Lookup(m, "block_name") == None
    ensures Decode(JObj(m)).value.blockName == None
  {
    DecodeIff(m, Decode(JObj(m)).value);
  }

  /**
   * The class has no `view_name`, so such a member is an unknown key: adding
   * one to any object makes the decode fail, at that member when everything
   * before it can be read.
   */
  lemma ViewNameRefused(m: seq<(string, Json)>, v: Json)
    ensures Decode(JObj(m + [("view_name", v)])).Exn?
    ensures OnlyProperties(Fields, m) ==> Decode(JObj(m + [("view_name", v)])) == Exn(UnknownKey("view_name"))
  {
    var m' := m + [("view_name", v)];
    forall i | 0 <= i < |Fields| ensures Fields[i].wire != "view_name" {
      assert i == 0 || i == 1 || i == 2 || i == 3 || i == 4 || i == 5 || i == 6 || i == 7 ||
          i == 8 || i == 9 || i == 10 || i == 11 || i == 12 || i == 13;
    }
    UnknownKeyRefused(Fields, m', |m|);
    if OnlyProperties(Fields, m) {
      assert m'[..|m|] == m;
      UnknownKeyFails(Fields, m', |m|);
    }
  }

  /** Counters beyond the 32-bit range, which BaseShared would refuse, decode here. */
  lemma WideCounter(m: seq<(string, Json)>, d: SharedDetails)
    requires Describes(m, d)
    requires d.downloadCount == Int32Max + 1
    ensures Decode(JObj(m)) == Ok(d)
  {
    DecodeIff(m, d);
  }

}
