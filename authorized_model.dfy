/**
 * AuthorizedModel: the account returned by the SNS login exchange.  Every
 * property is required.  `user_reg_dt` is a Long written as a decimal string
 * (StringLongSerializer) and `is_sns_user` a Boolean written as "Y"/"N"
 * (SnsSerializer).
 */
module AuthorizedModelSchema {
  import opened Wrappers
  import opened Ints
  import opened Json
  import opened Schema
  import StringLongSerializer

  datatype AuthorizedModel = AuthorizedModel(
    snsKind: string,
    loginId: string,
    gcmId: string,
    sessionId: string,
    level: Int32,
    alias: string,
    userRegisterDate: Int64,
    isSnsUser: bool,
    deviceId: string,
    userId: Int32,
    gradeLevel: Int32,
    gradePoint: Int32
  )

  const Fields: seq<Field> := [
    Field("sns_kind", StringField),
    Field("login_id", StringField),
    Field("gcm_id", StringField),
    Field("session_id", StringField),
    Field("level", IntField),
    Field("alias", StringField),
    Field("user_reg_dt", StringLong),
    Field("is_sns_user", Sns),
    Field("device_id", StringField),
    Field("user_id", IntField),
    Field("grade_level", IntField),
    Field("grade_point", IntField)
  ]

  function Row(a: AuthorizedModel): (row: seq<Scalar>)
    ensures WellTyped(Fields, row)
  {
    [StrVal(a.snsKind), StrVal(a.loginId), StrVal(a.gcmId), StrVal(a.sessionId), IntVal(a.level),
     StrVal(a.alias), LongVal(a.userRegisterDate), BoolVal(a.isSnsUser), StrVal(a.deviceId),
     IntVal(a.userId), IntVal(a.gradeLevel), IntVal(a.gradePoint)]
  }

  function FromRow(row: seq<Scalar>): (a: AuthorizedModel)
    requires WellTyped(Fields, row)
    ensures Row(a) == row
  {
    AuthorizedModel(row[0].s, row[1].s, row[2].s, row[3].s, row[4].i, row[5].s, row[6].l, row[7].b,
                    row[8].s, row[9].i, row[10].i, row[11].i)
  }

  /** The object the serializer writes; RoundTrip decodes it back. */
  function Encode(a: AuthorizedModel): Json {
    JObj(EncodeRow(Fields, Row(a)))
  }

  /** Decoding through the class's table; anything but an object is refused as an unexpected body. */
  function Decode(j: Json): (r: Outcome<AuthorizedModel>)
    ensures !j.JObj? ==> r == Exn(UnexpectedBody)
  {
    match DecodeObject(Fields, j)
    case Ok(row) => Ok(FromRow(row))
    case Exn(c) => Exn(c)
  }

  /** The wire name and the wire form of each property; all of them are required. */
  predicate Describes(m: seq<(string, Json)>, a: AuthorizedModel) {
    && OnlyProperties(Fields, m)
    && CarriesString(m, "sns_kind", a.snsKind)
    && CarriesString(m, "login_id", a.loginId)
    && CarriesString(m, "gcm_id", a.gcmId)
    && CarriesString(m, "session_id", a.sessionId)
    && CarriesNumber(m, "level", a.level)
    && CarriesString(m, "alias", a.alias)
    && CarriesDecimal(m, "user_reg_dt", a.userRegisterDate)
    && CarriesFlag(m, "is_sns_user", a.isSnsUser)
    && CarriesString(m, "device_id", a.deviceId)
    && CarriesNumber(m, "user_id", a.userId)
    && CarriesNumber(m, "grade_level", a.gradeLevel)
    && CarriesNumber(m, "grade_point", a.gradePoint)
  }

  lemma HoldsFirst(m: seq<(string, Json)>, a: AuthorizedModel)
    requires forall i :: 0 <= i < |Fields| ==> Holds(m, Fields[i], Row(a)[i])
    ensures CarriesString(m, "sns_kind", a.snsKind)
    ensures CarriesString(m, "login_id", a.loginId)
    ensures CarriesString(m, "gcm_id", a.gcmId)
    ensures CarriesString(m, "session_id", a.sessionId)
    ensures CarriesNumber(m, "level", a.level)
    ensures CarriesString(m, "alias", a.alias)
  {
    assert Holds(m, Fields[0], Row(a)[0]);
    assert Holds(m, Fields[1], Row(a)[1]);
    assert Holds(m, Fields[2], Row(a)[2]);
    assert Holds(m, Fields[3], Row(a)[3]);
    assert Holds(m, Fields[4], Row(a)[4]);
    assert Holds(m, Fields[5], Row(a)[5]);
  }

  lemma HoldsRest(m: seq<(string, Json)>, a: AuthorizedModel)
    requires forall i :: 0 <= i < |Fields| ==> Holds(m, Fields[i], Row(a)[i])
    ensures CarriesDecimal(m, "user_reg_dt", a.userRegisterDate)
    ensures CarriesFlag(m, "is_sns_user", a.isSnsUser)
    ensures CarriesString(m, "device_id", a.deviceId)
    ensures CarriesNumber(m, "user_id", a.userId)
    ensures CarriesNumber(m, "grade_level", a.gradeLevel)
    ensures CarriesNumber(m, "grade_point", a.gradePoint)
  {
    assert Holds(m, Fields[6], Row(a)[6]);
    assert Holds(m, Fields[7], Row(a)[7]);
    assert Holds(m, Fields[8], Row(a)[8]);
    assert Holds(m, Fields[9], Row(a)[9]);
    assert Holds(m, Fields[10], Row(a)[10]);
    assert Holds(m, Fields[11], Row(a)[11]);
  }

  lemma HoldsDescribes(m: seq<(string, Json)>, a: AuthorizedModel)
    requires OnlyProperties(Fields, m)
    requires forall i :: 0 <= i < |Fields| ==> Holds(m, Fields[i], Row(a)[i])
    ensures Describes(m, a)
  {
    HoldsFirst(m, a);
    HoldsRest(m, a);
  }

  lemma FirstHold(m: seq<(string, Json)>, a: AuthorizedModel)
    requires CarriesString(m, "sns_kind", a.snsKind)
    requires CarriesString(m, "login_id", a.loginId)
    requires CarriesString(m, "gcm_id", a.gcmId)
    requires CarriesString(m, "session_id", a.sessionId)
    requires CarriesNumber(m, "level", a.level)
    requires CarriesString(m, "alias", a.alias)
    ensures forall i :: 0 <= i < 6 ==> Holds(m, Fields[i], Row(a)[i])
  {
    forall i | 0 <= i < 6 ensures Holds(m, Fields[i], Row(a)[i]) {
      assert i == 0 || i == 1 || i == 2 || i == 3 || i == 4 || i == 5;
    }
  }

  lemma RestHold(m: seq<(string, Json)>, a: AuthorizedModel)
    requires CarriesDecimal(m, "user_reg_dt", a.userRegisterDate)
    requires CarriesFlag(m, "is_sns_user", a.isSnsUser)
    requires CarriesString(m, "device_id", a.deviceId)
    requires CarriesNumber(m, "user_id", a.userId)
    requires CarriesNumber(m, "grade_level", a.gradeLevel)
    requires CarriesNumber(m, "grade_point", a.gradePoint)
    ensures forall i :: 6 <= i < |Fields| ==> Holds(m, Fields[i], Row(a)[i])
  {
    forall i | 6 <= i < |Fields| ensures Holds(m, Fields[i], Row(a)[i]) {
      assert i == 6 || i == 7 || i == 8 || i == 9 || i == 10 || i == 11;
    }
  }

  lemma DescribesHolds(m: seq<(string, Json)>, a: AuthorizedModel)
    requires Describes(m, a)
    ensures forall i :: 0 <= i < |Fields| ==> Holds(m, Fields[i], Row(a)[i])
  {
    FirstHold(m, a);
    RestHold(m, a);
  }

  /** Decoding an object yields a record exactly when the object describes it. */
  lemma DecodeIff(m: seq<(string, Json)>, a: AuthorizedModel)
    ensures Decode(JObj(m)) == Ok(a) <==> Describes(m, a)
  {
    WiresDistinct();
    DecodeObjectHolds(Fields, m, Row(a));
    if Decode(JObj(m)) == Ok(a) {
      assert DecodeObject(Fields, JObj(m)) == Ok(Row(a));
      HoldsDescribes(m, a);
    }
    if Describes(m, a) {
      DescribesHolds(m, a);
    }
  }

  /** No two properties share a wire name. */
  lemma WiresDistinct()
    ensures DistinctWires(Fields)
  {
    forall i, j | 0 <= i < j < |Fields| ensures Fields[i].wire != Fields[j].wire {
      assert i == 0 || i == 1 || i == 2 || i == 3 || i == 4 || i == 5 || i == 6 || i == 7 ||
          i == 8 || i == 9 || i == 10 || i == 11;
    }
  }

  /** What the serializer writes decodes back to the same AuthorizedModel. */
  lemma RoundTrip(a: AuthorizedModel)
    ensures Decode(Encode(a)) == Ok(a)
  {
    WiresDistinct();
    Schema.RoundTrip(Fields, Row(a));
  }

  /** A missing required property makes decoding fail. */
  lemma MissingKeyFails(m: seq<(string, Json)>, key: string)
    requires key in {"sns_kind", "login_id", "gcm_id", "session_id", "level", "alias", "user_reg_dt", "is_sns_user", "device_id", "user_id", "grade_level", "grade_point"}
    requires Lookup(m, key) == None
    ensures Decode(JObj(m)).Exn?
  {
    if Decode(JObj(m)).Ok? {
      DecodeIff(m, Decode(JObj(m)).value);
    }
  }


  /** `is_sns_user` decodes to true exactly when its member is the string "Y"; any other string is false. */
  lemma SnsFlagFromWire(m: seq<(string, Json)>)
    requires Decode(JObj(m)).Ok?
    ensures Decode(JObj(m)).value.isSnsUser <==> Lookup(m, "is_sns_user") == Some(JStr("Y"))
  {
    DecodeIff(m, Decode(JObj(m)).value);
  }

  /** `user_reg_dt` must be a JSON string holding a decimal numeral in range; a number is refused. */
  lemma RegisterDateFromWire(m: seq<(string, Json)>)
    requires Decode(JObj(m)).Ok?
    ensures Lookup(m, "user_reg_dt").Some? && Lookup(m, "user_reg_dt").value.JStr?
    ensures StringLongSerializer.Deserialize(Lookup(m, "user_reg_dt").value.s) == Ok(Decode(JObj(m)).value.userRegisterDate)
  {
    DecodeIff(m, Decode(JObj(m)).value);
  }

  /** A registration date that `toLong()` rejects makes the whole decode fail with that error. */
  lemma BadRegisterDateFails(m: seq<(string, Json)>, s: string)
    requires Lookup(m, "user_reg_dt") == Some(JStr(s))
    requires StringLongSerializer.Deserialize(s).Exn?
    ensures Decode(JObj(m)).Exn?
  {
    if Decode(JObj(m)).Ok? {
      DecodeIff(m, Decode(JObj(m)).value);
    }
  }

  /** The encoding writes the date in canonical decimal form and the flag as "Y" or "N". */
  lemma EncodedForms(a: AuthorizedModel)
    ensures Lookup(Encode(a).members, "user_reg_dt") == Some(JStr(StringLongSerializer.Serialize(a.userRegisterDate)))
    ensures Lookup(Encode(a).members, "is_sns_user") == Some(JStr(if a.isSnsUser then "Y" else "N"))
  {
    WiresDistinct();
    LookupEncoded(Fields, Row(a), 6);
    LookupEncoded(Fields, Row(a), 7);
  }

}
