/**
 * SharedProject: one entry of a user's shared projects.  The registration
 * and expiry dates are Longs written as decimal strings (StringLongSerializer).
 */
module SharedProjectSchema {
  import opened Wrappers
  import opened Ints
  import opened Json
  import opened Schema
  import StringLongSerializer

  datatype SharedProject = SharedProject(
    alias: string,
    packageName: string,
    urlId: Int32,
    userId: Int32,
    appName: string,
    registerDate: Int64,
    expireDate: Int64
  )

  const Fields: seq<Field> := [
    Field("alias", StringField),
    Field("pkg_name", StringField),
    Field("url_id", IntField),
    Field("user_id", IntField),
    Field("app_name", StringField),
    Field("reg_dt", StringLong),
    Field("expire_dt", StringLong)
  ]

  function Row(p: SharedProject): (row: seq<Scalar>)
    ensures WellTyped(Fields, row)
  {
    [StrVal(p.alias), StrVal(p.packageName), IntVal(p.urlId), IntVal(p.userId), StrVal(p.appName),
     LongVal(p.registerDate), LongVal(p.expireDate)]
  }

  function FromRow(row: seq<Scalar>): (p: SharedProject)
    requires WellTyped(Fields, row)
    ensures Row(p) == row
  {
    SharedProject(row[0].s, row[1].s, row[2].i, row[3].i, row[4].s, row[5].l, row[6].l)
  }

  /** The object the serializer writes; RoundTrip decodes it back. */
  function Encode(p: SharedProject): Json {
    JObj(EncodeRow(Fields, Row(p)))
  }

  /** Decoding through the class's table; anything but an object is refused as an unexpected body. */
  function Decode(j: Json): (r: Outcome<SharedProject>)
    ensures !j.JObj? ==> r == Exn(UnexpectedBody)
  {
    match DecodeObject(Fields, j)
    case Ok(row) => Ok(FromRow(row))
    case Exn(c) => Exn(c)
  }

  /** The wire name and the wire form of each property; all of them are required. */
  predicate Describes(m: seq<(string, Json)>, p: SharedProject) {
    && OnlyProperties(Fields, m)
    && CarriesString(m, "alias", p.alias)
    && CarriesString(m, "pkg_name", p.packageName)
    && CarriesNumber(m, "url_id", p.urlId)
    && CarriesNumber(m, "user_id", p.userId)
    && CarriesString(m, "app_name", p.appName)
    && CarriesDecimal(m, "reg_dt", p.registerDate)
    && CarriesDecimal(m, "expire_dt", p.expireDate)
  }

  lemma HoldsDescribes(m: seq<(string, Json)>, p: SharedProject)
    requires OnlyProperties(Fields, m)
    requires forall i :: 0 <= i < |Fields| ==> Holds(m, Fields[i], Row(p)[i])
    ensures Describes(m, p)
  {
    assert Holds(m, Fields[0], Row(p)[0]);
    assert Holds(m, Fields[1], Row(p)[1]);
    assert Holds(m, Fields[2], Row(p)[2]);
    assert Holds(m, Fields[3], Row(p)[3]);
    assert Holds(m, Fields[4], Row(p)[4]);
    assert Holds(m, Fields[5], Row(p)[5]);
    assert Holds(m, Fields[6], Row(p)[6]);
  }

  lemma DescribesHolds(m: seq<(string, Json)>, p: SharedProject)
    requires Describes(m, p)
    ensures forall i :: 0 <= i < |Fields| ==> Holds(m, Fields[i], Row(p)[i])
  {
    forall i | 0 <= i < |Fields| ensures Holds(m, Fields[i], Row(p)[i]) {
      assert i == 0 || i == 1 || i == 2 || i == 3 || i == 4 || i == 5 || i == 6;
    }
  }

  /** Decoding an object yields a record exactly when the object describes it. */
  lemma DecodeIff(m: seq<(string, Json)>, p: SharedProject)
    ensures Decode(JObj(m)) == Ok(p) <==> Describes(m, p)
  {
    WiresDistinct();
    DecodeObjectHolds(Fields, m, Row(p));
    if Decode(JObj(m)) == Ok(p) {
      assert DecodeObject(Fields, JObj(m)) == Ok(Row(p));
      HoldsDescribes(m, p);
    }
    if Describes(m, p) {
      DescribesHolds(m, p);
    }
  }

  /** No two properties share a wire name. */
  lemma WiresDistinct()
    ensures DistinctWires(Fields)
  {
    forall i, j | 0 <= i < j < |Fields| ensures Fields[i].wire != Fields[j].wire {
      assert i == 0 || i == 1 || i == 2 || i == 3 || i == 4 || i == 5 || i == 6;
    }
  }

  /** What the serializer writes decodes back to the same SharedProject. */
  lemma RoundTrip(p: SharedProject)
    ensures Decode(Encode(p)) == Ok(p)
  {
    WiresDistinct();
    Schema.RoundTrip(Fields, Row(p));
  }

  /** A missing required property makes decoding fail. */
  lemma MissingKeyFails(m: seq<(string, Json)>, key: string)
    requires key in {"alias", "pkg_name", "url_id", "user_id", "app_name", "reg_dt", "expire_dt"}
    requires Lookup(m, key) == None
    ensures Decode(JObj(m)).Exn?
  {
    if Decode(JObj(m)).Ok? {
      DecodeIff(m, Decode(JObj(m)).value);
    }
  }


  /** A registration or expiry date that `toLong()` rejects makes the whole decode fail. */
  lemma BadDateFails(m: seq<(string, Json)>, key: string, s: string)
    requires key == "reg_dt" || key == "expire_dt"
    requires Lookup(m, key) == Some(JStr(s))
    requires StringLongSerializer.Deserialize(s).Exn?
    ensures Decode(JObj(m)).Exn?
  {
    if Decode(JObj(m)).Ok? {
      DecodeIff(m, Decode(JObj(m)).value);
    }
  }

  /** A date given as a JSON number rather than a string is refused. */
  lemma NumericDateFails(m: seq<(string, Json)>, key: string, n: int)
    requires key == "reg_dt" || key == "expire_dt"
    requires Lookup(m, key) == Some(JNum(n))
    ensures Decode(JObj(m)).Exn?
  {
    if Decode(JObj(m)).Ok? {
      DecodeIff(m, Decode(JObj(m)).value);
    }
  }

}
