/**
 * ExportedApk: one exported application of a user.  The file name is
 * declared under the wire name "file_na,e" (a comma where "m" was surely
 * meant); the model keeps that name, so an object that spells the property
 * "file_name" does not decode.  The dates stay raw strings.
 */
module ExportedApkSchema {
  import opened Wrappers
  import opened Ints
  import opened Json
  import opened Schema

  datatype ExportedApk = ExportedApk(
    alias: string,
    packageName: string,
    urlId: Int32,
    userId: Int32,
    fileName: string,
    regDate: string,
    expireDate: string
  )

  const Fields: seq<Field> := [
    Field("alias", StringField),
    Field("pkg_name", StringField),
    Field("url_id", IntField),
    Field("user_id", IntField),
    Field("file_na,e", StringField),
    Field("reg_dt", StringField),
    Field("expire_dt", StringField)
  ]

  function Row(e: ExportedApk): (row: seq<Scalar>)
    ensures WellTyped(Fields, row)
  {
    [StrVal(e.alias), StrVal(e.packageName), IntVal(e.urlId), IntVal(e.userId), StrVal(e.fileName),
     StrVal(e.regDate), StrVal(e.expireDate)]
  }

  function FromRow(row: seq<Scalar>): (e: ExportedApk)
    requires WellTyped(Fields, row)
    ensures Row(e) == row
  {
    ExportedApk(row[0].s, row[1].s, row[2].i, row[3].i, row[4].s, row[5].s, row[6].s)
  }

  /** The object the serializer writes; RoundTrip decodes it back. */
  function Encode(e: ExportedApk): Json {
    JObj(EncodeRow(Fields, Row(e)))
  }

  /** Decoding through the class's table; anything but an object is refused as an unexpected body. */
  function Decode(j: Json): (r: Outcome<ExportedApk>)
    ensures !j.JObj? ==> r == Exn(UnexpectedBody)
  {
    match DecodeObject(Fields, j)
    case Ok(row) => Ok(FromRow(row))
    case Exn(c) => Exn(c)
  }

  /** The wire name of each property, "file_na,e" included; all of them are required. */
  predicate Describes(m: seq<(string, Json)>, e: ExportedApk) {
    && OnlyProperties(Fields, m)
    && CarriesString(m, "alias", e.alias)
    && CarriesString(m, "pkg_name", e.packageName)
    && CarriesNumber(m, "url_id", e.urlId)
    && CarriesNumber(m, "user_id", e.userId)
    && CarriesString(m, "file_na,e", e.fileName)
    && CarriesString(m, "reg_dt", e.regDate)
    && CarriesString(m, "expire_dt", e.expireDate)
  }

  lemma HoldsDescribes(m: seq<(string, Json)>, e: ExportedApk)
    requires OnlyProperties(Fields, m)
    requires forall i :: 0 <= i < |Fields| ==> Holds(m, Fields[i], Row(e)[i])
    ensures Describes(m, e)
  {
    assert Holds(m, Fields[0], Row(e)[0]);
    assert Holds(m, Fields[1], Row(e)[1]);
    assert Holds(m, Fields[2], Row(e)[2]);
    assert Holds(m, Fields[3], Row(e)[3]);
    assert Holds(m, Fields[4], Row(e)[4]);
    assert Holds(m, Fields[5], Row(e)[5]);
    assert Holds(m, Fields[6], Row(e)[6]);
  }

  lemma DescribesHolds(m: seq<(string, Json)>, e: ExportedApk)
    requires Describes(m, e)
    ensures forall i :: 0 <= i < |Fields| ==> Holds(m, Fields[i], Row(e)[i])
  {
    forall i | 0 <= i < |Fields| ensures Holds(m, Fields[i], Row(e)[i]) {
      assert i == 0 || i == 1 || i == 2 || i == 3 || i == 4 || i == 5 || i == 6;
    }
  }

  /** Decoding an object yields a record exactly when the object describes it. */
  lemma DecodeIff(m: seq<(string, Json)>, e: ExportedApk)
    ensures Decode(JObj(m)) == Ok(e) <==> Describes(m, e)
  {
    WiresDistinct();
    DecodeObjectHolds(Fields, m, Row(e));
    if Decode(JObj(m)) == Ok(e) {
      assert DecodeObject(Fields, JObj(m)) == Ok(Row(e));
      HoldsDescribes(m, e);
    }
    if Describes(m, e) {
      DescribesHolds(m, e);
    }
  }

  /** No two properties share a wire name. */
  lemma WiresDistinct()
    ensures DistinctWires(Fields)
  {
    forall i, j | 0 <= i < j < |Fields| ensures Fields[i].wire != Fields[j].wire {
      assert i == 0 || i == 1 || i == 2 || i == 3 || i == 4 || i == 5 || i == 6;
    }
  }

  /** What the serializer writes decodes back to the same ExportedApk. */
  lemma RoundTrip(e: ExportedApk)
    ensures Decode(Encode(e)) == Ok(e)
  {
    WiresDistinct();
    Schema.RoundTrip(Fields, Row(e));
  }

  /** A missing required property makes decoding fail. */
  lemma MissingKeyFails(m: seq<(string, Json)>, key: string)
    requires key in {"alias", "pkg_name", "url_id", "user_id", "file_na,e", "reg_dt", "expire_dt"}
    requires Lookup(m, key) == None
    ensures Decode(JObj(m)).Exn?
  {
    if Decode(JObj(m)).Ok? {
      DecodeIff(m, Decode(JObj(m)).value);
    }
  }


  /** A record's members as they would read with the file name keyed `file_name`. */
  function ServiceObject(e: ExportedApk): seq<(string, Json)> {
    [("alias", JStr(e.alias)), ("pkg_name", JStr(e.packageName)), ("url_id", JNum(e.urlId)),
     ("user_id", JNum(e.userId)), ("file_name", JStr(e.fileName)), ("reg_dt", JStr(e.regDate)),
     ("expire_dt", JStr(e.expireDate))]
  }

  /**
   * `file_name` is the name of no property, so a member of that name is an
   * unknown key: after members that can be read, it is the exception reported.
   */
  lemma FileNameKeyFails(m: seq<(string, Json)>, k: nat)
    requires k < |m| && m[k].0 == "file_name" && OnlyProperties(Fields, m[..k])
    ensures Decode(JObj(m)) == Exn(UnknownKey("file_name"))
  {
    WiresDistinct();
    forall i | 0 <= i < |Fields| ensures Fields[i].wire != "file_name" {
      assert i == 0 || i == 1 || i == 2 || i == 3 || i == 4 || i == 5 || i == 6;
    }
    UnknownKeyFails(Fields, m, k);
  }

  /** An object with a `file_name` member anywhere never decodes. */
  lemma FileNameKeyRefused(m: seq<(string, Json)>, k: nat)
    requires k < |m| && m[k].0 == "file_name"
    ensures Decode(JObj(m)).Exn?
  {
    forall i | 0 <= i < |Fields| ensures Fields[i].wire != "file_name" {
      assert i == 0 || i == 1 || i == 2 || i == 3 || i == 4 || i == 5 || i == 6;
    }
    UnknownKeyRefused(Fields, m, k);
  }

  /** The encoding with the key spelled `file_name` is refused at that key, after four members that read. */
  lemma ServiceObjectFails(e: ExportedApk)
    ensures Decode(JObj(ServiceObject(e))) == Exn(UnknownKey("file_name"))
  {
    var m := ServiceObject(e);
    WiresDistinct();
    forall k | 0 <= k < 4 ensures Readable(Fields, m[..4][k]) {
      assert m[..4][k] == m[k];
      assert m[k].0 == Fields[k].wire && Accepts(Fields[k].ty, m[k].1) by {
        assert k == 0 || k == 1 || k == 2 || k == 3;
      }
      IndexOfWire(Fields, k);
    }
    OnlyPropertiesIff(Fields, m[..4]);
    FileNameKeyFails(m, 4);
  }

  /** The encoding writes the file name under "file_na,e", and nothing under "file_name". */
  lemma EncodedFileName(e: ExportedApk)
    ensures Lookup(Encode(e).members, "file_na,e") == Some(JStr(e.fileName))
    ensures Lookup(Encode(e).members, "file_name") == None
  {
    WiresDistinct();
    LookupEncoded(Fields, Row(e), 4);
    LookupAbsent(Fields, Row(e), "file_name");
  }

  /** The encoding is the object a reader keyed on `file_name` expects, but for the fifth key. */
  lemma EncodedLayout(e: ExportedApk)
    ensures Encode(e).members == ServiceObject(e)[4 := ("file_na,e", JStr(e.fileName))]
  {
    EncodeRowFull(Fields, Row(e));
    forall k | 0 <= k < 7 ensures Encode(e).members[k] == ServiceObject(e)[4 := ("file_na,e", JStr(e.fileName))][k] {
      assert k == 0 || k == 1 || k == 2 || k == 3 || k == 4 || k == 5 || k == 6;
    }
  }
}
