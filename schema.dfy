/**
 * The declarative field tables behind the `@Serializable` model classes, and
 * the one generic routine that encodes a record to a JSON object and decodes
 * it back.  A table lists, in declaration order, each property's wire name
 * (its `@SerialName`, or the property name) and how its value is carried;
 * each per-shape module turns its record into a row of scalars and back.
 *
 * Encoding: properties in declaration order, and a nullable property left at
 * its `null` default is omitted.
 *
 * Decoding is the streaming decoder the client's JSON configuration installs
 * (unknown keys not ignored, not lenient):
 *   - the members are read in the object's own order;
 *   - a member named after no property is an exception at once;
 *   - each member's value is decoded as its property's type, and a value of
 *     the wrong kind, out of range or refused by a codec is an exception at once;
 *   - a later member of the same name overwrites an earlier one;
 *   - an Int or Long property takes a JSON number or a string holding a numeral;
 *   - once the object is read, each property takes its value, or its `null`
 *     default, and the first required one (in declaration order) that never
 *     appeared is a missing-field exception.
 */
module Schema {
  import opened Wrappers
  import opened Ints
  import opened Json
  import StringLongSerializer
  import SnsSerializer

  /** How one property is carried on the wire. */
  datatype FieldType =
    | IntField         // Kotlin Int: a number in the 32-bit range, bare or quoted
    | LongField        // Kotlin Long: a number in the 64-bit range, bare or quoted
    | StringField      // Kotlin String: a JSON string
    | OptionalString   // Kotlin `String? = null`: a JSON string, null, or absent
    | StringLong       // Long through StringLongSerializer: a decimal JSON string
    | Sns              // Boolean through SnsSerializer: a "Y"/"N" JSON string

  datatype Field = Field(wire: string, ty: FieldType)

  /** The value of one property of a record. */
  datatype Scalar =
    | IntVal(i: Int32)
    | LongVal(l: Int64)
    | StrVal(s: string)
    | OptStrVal(o: Option<string>)
    | BoolVal(b: bool)

  predicate HasType(v: Scalar, t: FieldType) {
    match t
    case IntField => v.IntVal?
    case LongField => v.LongVal?
    case StringLong => v.LongVal?
    case StringField => v.StrVal?
    case OptionalString => v.OptStrVal?
    case Sns => v.BoolVal?
  }

  predicate WellTyped(fields: seq<Field>, row: seq<Scalar>) {
    |row| == |fields| && forall i :: 0 <= i < |row| ==> HasType(row[i], fields[i].ty)
  }

  /** Every property except a nullable one with a default must be present. */
  predicate Required(f: Field) {
    f.ty != OptionalString
  }

  predicate DistinctWires(fields: seq<Field>) {
    forall i, j :: 0 <= i < j < |fields| ==> fields[i].wire != fields[j].wire
  }

  // ---------------------------------------------------------------------------
  // Encoding

  /** The JSON a property encodes to, or None when it is omitted. */
  function EncodeValue(t: FieldType, v: Scalar): (r: Option<Json>)
    requires HasType(v, t)
    ensures r.None? <==> t == OptionalString && v.o.None?
  {
    match t
    case IntField => Some(JNum(v.i))
    case LongField => Some(JNum(v.l))
    case StringField => Some(JStr(v.s))
    case OptionalString => if v.o.Some? then Some(JStr(v.o.value)) else None
    case StringLong => Some(JStr(StringLongSerializer.Serialize(v.l)))
    case Sns => Some(JStr(SnsSerializer.Serialize(v.b)))
  }

  function EncodeRow(fields: seq<Field>, row: seq<Scalar>): seq<(string, Json)>
    requires WellTyped(fields, row)
  {
    if |fields| == 0 then []
    else
      var rest := EncodeRow(fields[1..], row[1..]);
      match EncodeValue(fields[0].ty, row[0])
      case Some(j) => [(fields[0].wire, j)] + rest
      case None => rest
  }

  // ---------------------------------------------------------------------------
  // Decoding

  /** The position of the first property named `key`, when the table has one. */
  function IndexOf(fields: seq<Field>, key: string): (r: Option<nat>)
    ensures r.Some? ==> r.value < |fields| && fields[r.value].wire == key
    ensures r.None? <==> forall i :: 0 <= i < |fields| ==> fields[i].wire != key
  {
    if |fields| == 0 then None
    else if fields[0].wire == key then Some(0)
    else
      var r := IndexOf(fields[1..], key);
      assert forall i :: 0 < i < |fields| ==> fields[i] == fields[1..][i - 1];
      if r.Some? then Some(r.value + 1) else None
  }

  /**
   * The number an Int or Long property reads from a value: a JSON number, or
   * a JSON string holding a numeral that `String.toLong()` accepts.
   */
  function NumberIn(j: Json): (r: Option<int>)
    ensures j.JNum? ==> r == Some(j.n)
    ensures r.Some? ==> j.JNum? || (j.JStr? && IsInt64(r.value))
  {
    match j
    case JNum(n) => Some(n)
    case JStr(s) =>
      (match StringLongSerializer.Deserialize(s)
       case Ok(n) => Some(n)
       case Exn(_) => None)
    case _ => None
  }

  /** Decodes the value of a member as property `f`. */
  function DecodeMember(f: Field, j: Json): (r: Outcome<Scalar>)
    ensures r.Ok? ==> HasType(r.value, f.ty)
  {
    match f.ty
    case IntField =>
      var n := NumberIn(j);
      if n.Some? && IsInt32(n.value) then Ok(IntVal(n.value)) else Exn(UnexpectedValue(f.wire))
    case LongField =>
      var n := NumberIn(j);
      if n.Some? && IsInt64(n.value) then Ok(LongVal(n.value)) else Exn(UnexpectedValue(f.wire))
    case StringField => if j.JStr? then Ok(StrVal(j.s)) else Exn(UnexpectedValue(f.wire))
    case OptionalString =>
      if j.JStr? then Ok(OptStrVal(Some(j.s)))
      else if j.JNull? then Ok(OptStrVal(None))
      else Exn(UnexpectedValue(f.wire))
    case StringLong =>
      if j.JStr? then
        match StringLongSerializer.Deserialize(j.s)
        case Ok(n) => Ok(LongVal(n))
        case Exn(c) => Exn(c)
      else Exn(UnexpectedValue(f.wire))
    case Sns => if j.JStr? then Ok(BoolVal(SnsSerializer.Deserialize(j.s))) else Exn(UnexpectedValue(f.wire))
  }

  /** What a property decodes to from the member last found under its name (None: it never appeared). */
  function DecodeValue(f: Field, found: Option<Json>): (r: Outcome<Scalar>)
    ensures r.Ok? ==> HasType(r.value, f.ty)
    ensures found.None? ==> (r.Ok? <==> !Required(f))
  {
    match found
    case None =>
      if Required(f) then Exn(MissingField(f.wire)) else Ok(OptStrVal(None))
    case Some(j) => DecodeMember(f, j)
  }

  /** One slot per property, holding the member last read under its name, if any. */
  function NoSlots(n: nat): (slots: seq<Option<Json>>)
    ensures |slots| == n && forall i :: 0 <= i < n ==> slots[i] == None
  {
    seq(n, _ => None)
  }

  /**
   * Reads one member: the position of its property, once its value has been
   * decoded as that property's type, or the exception it raises.
   */
  function ReadMember(fields: seq<Field>, member: (string, Json)): (r: Outcome<nat>)
    ensures r.Ok? ==> r.value < |fields| && fields[r.value].wire == member.0
    ensures r.Ok? ==> DecodeMember(fields[r.value], member.1).Ok?
  {
    match IndexOf(fields, member.0)
    case None => Exn(UnknownKey(member.0))
    case Some(i) =>
      match DecodeMember(fields[i], member.1)
      case Exn(c) => Exn(c)
      case Ok(_) => Ok(i)
  }

  /**
   * Reads the members in the object's order, each into the slot of its
   * property, a later member overwriting an earlier one of the same name;
   * the first member that cannot be read ends the decode with its exception.
   */
  function ReadMembers(fields: seq<Field>, members: seq<(string, Json)>, slots: seq<Option<Json>>): (r: Outcome<seq<Option<Json>>>)
    requires |slots| == |fields|
    ensures r.Ok? ==> |r.value| == |fields|
  {
    if |members| == 0 then Ok(slots)
    else
      match ReadMember(fields, members[0])
      case Exn(c) => Exn(c)
      case Ok(i) => ReadMembers(fields, members[1..], slots[i := Some(members[0].1)])
  }

  /**
   * After the whole object is read, the properties settle in declaration
   * order: each takes the value of its slot, or its default, or raises a
   * missing-field exception.
   */
  function Finish(fields: seq<Field>, slots: seq<Option<Json>>): (r: Outcome<seq<Scalar>>)
    requires |slots| == |fields|
    ensures r.Ok? ==> WellTyped(fields, r.value)
  {
    if |fields| == 0 then Ok([])
    else
      assert forall i :: 0 < i < |fields| ==> fields[i] == fields[1..][i - 1] && slots[i] == slots[1..][i - 1];
      match DecodeValue(fields[0], slots[0])
      case Exn(c) => Exn(c)
      case Ok(v) =>
        match Finish(fields[1..], slots[1..])
        case Exn(c) => Exn(c)
        case Ok(vs) => Ok([v] + vs)
  }

  /** A record is decoded from a JSON object; any other JSON is an exception. */
  function DecodeObject(fields: seq<Field>, j: Json): (r: Outcome<seq<Scalar>>)
    ensures r.Ok? ==> WellTyped(fields, r.value)
  {
    match j
    case JObj(members) =>
      (match ReadMembers(fields, members, NoSlots(|fields|))
       case Exn(c) => Exn(c)
       case Ok(slots) => Finish(fields, slots))
    case _ => Exn(UnexpectedBody)
  }

  // ---------------------------------------------------------------------------
  // The wire forms, stated independently of the decoder

  /** The JSON a property of type `t` accepts as a member's value. */
  predicate Accepts(t: FieldType, j: Json) {
    match t
    case IntField => NumberIn(j).Some? && IsInt32(NumberIn(j).value)
    case LongField => NumberIn(j).Some? && IsInt64(NumberIn(j).value)
    case StringField => j.JStr?
    case OptionalString => j.JStr? || j.JNull?
    case StringLong => j.JStr? && StringLongSerializer.Deserialize(j.s).Ok?
    case Sns => j.JStr?
  }

  /** A member named after a property of the table, holding a value that property accepts. */
  predicate Readable(fields: seq<Field>, member: (string, Json)) {
    var i := IndexOf(fields, member.0);
    i.Some? && Accepts(fields[i.value].ty, member.1)
  }

  /** Every member of the object is readable. */
  predicate OnlyProperties(fields: seq<Field>, members: seq<(string, Json)>) {
    |members| == 0 || (Readable(fields, members[0]) && OnlyProperties(fields, members[1..]))
  }

  // ---------------------------------------------------------------------------
  // What the generic routine guarantees

  /** A property decodes back to the value it was encoded from. */
  lemma DecodeEncodedValue(f: Field, v: Scalar)
    requires HasType(v, f.ty)
    ensures DecodeValue(f, EncodeValue(f.ty, v)) == Ok(v)
  {
    match f.ty
    case StringLong => StringLongSerializer.RoundTrip(v.l);
    case Sns => SnsSerializer.RoundTrip(v.b);
    case _ =>
  }

  /** A member's value decodes as a property exactly when the property accepts it. */
  lemma AcceptsIff(f: Field, j: Json)
    ensures DecodeMember(f, j).Ok? <==> Accepts(f.ty, j)
  {
  }

  /** In a table with distinct names, a property's own name leads back to it. */
  lemma IndexOfWire(fields: seq<Field>, i: nat)
    requires DistinctWires(fields) && i < |fields|
    ensures IndexOf(fields, fields[i].wire) == Some(i)
  {
  }

  /** A member can be read exactly when it is readable. */
  lemma ReadMemberIff(fields: seq<Field>, member: (string, Json))
    ensures ReadMember(fields, member).Ok? <==> Readable(fields, member)
  {
    var i := IndexOf(fields, member.0);
    if i.Some? {
      AcceptsIff(fields[i.value], member.1);
    }
  }

  /** In an object of readable members, the member last under a name is readable. */
  lemma LookupReadable(fields: seq<Field>, m: seq<(string, Json)>, key: string)
    requires OnlyProperties(fields, m) && Lookup(m, key).Some?
    ensures Readable(fields, (key, Lookup(m, key).value))
  {
    OnlyPropertiesIff(fields, m);
  }

  /** An object has only readable members exactly when each of its members is readable. */
  lemma {:induction false} OnlyPropertiesIff(fields: seq<Field>, m: seq<(string, Json)>)
    ensures OnlyProperties(fields, m) <==> forall k :: 0 <= k < |m| ==> Readable(fields, m[k])
  {
    if |m| > 0 {
      OnlyPropertiesIff(fields, m[1..]);
      assert forall k :: 0 < k < |m| ==> m[k] == m[1..][k - 1];
    }
  }

  /**
   * Reading succeeds exactly when every member can be read, and then each
   * slot holds the last member under its property's name, or what it held
   * before when there is none.
   */
  lemma {:induction false} ReadMembersSlots(fields: seq<Field>, m: seq<(string, Json)>, slots: seq<Option<Json>>)
    requires DistinctWires(fields) && |slots| == |fields|
    ensures ReadMembers(fields, m, slots).Ok? <==> OnlyProperties(fields, m)
    ensures ReadMembers(fields, m, slots).Ok? ==>
              forall i :: 0 <= i < |fields| ==>
                ReadMembers(fields, m, slots).value[i] ==
                  if Lookup(m, fields[i].wire).Some? then Lookup(m, fields[i].wire) else slots[i]
    decreases |m|
  {
    if |m| > 0 {
      var rest := m[1..];
      ReadMemberIff(fields, m[0]);
      var p := ReadMember(fields, m[0]);
      if p.Ok? {
        var q := p.value;
        var slots' := slots[q := Some(m[0].1)];
        ReadMembersSlots(fields, rest, slots');
        var r := ReadMembers(fields, m, slots);
        if r.Ok? {
          forall i | 0 <= i < |fields|
            ensures r.value[i] == if Lookup(m, fields[i].wire).Some? then Lookup(m, fields[i].wire) else slots[i]
          {
            var w := fields[i].wire;
            if Lookup(rest, w).None? && m[0].0 == w {
              assert q == i;
            }
          }
        }
      }
    }
  }

  /** Settling succeeds with a row exactly when every property settles to its entry. */
  lemma {:induction false} FinishIff(fields: seq<Field>, slots: seq<Option<Json>>, row: seq<Scalar>)
    requires |slots| == |fields|
    ensures Finish(fields, slots) == Ok(row) <==>
              |row| == |fields| && forall i :: 0 <= i < |fields| ==> DecodeValue(fields[i], slots[i]) == Ok(row[i])
  {
    if |fields| > 0 {
      assert forall i :: 0 < i < |fields| ==> fields[i] == fields[1..][i - 1] && slots[i] == slots[1..][i - 1];
      if |row| == |fields| {
        FinishIff(fields[1..], slots[1..], row[1..]);
        assert row == [row[0]] + row[1..];
        assert forall i :: 0 < i < |fields| ==> row[i] == row[1..][i - 1];
      } else if Finish(fields, slots).Ok? {
        FinishIff(fields[1..], slots[1..], Finish(fields[1..], slots[1..]).value);
      }
    }
  }

  /**
   * A successful decode from an object: every member names a property that
   * accepts its value, and each property decodes to its entry of the row from
   * the last member under its name, or from its absence.
   */
  lemma DecodeObjectIff(fields: seq<Field>, members: seq<(string, Json)>, row: seq<Scalar>)
    requires DistinctWires(fields)
    ensures DecodeObject(fields, JObj(members)) == Ok(row) <==>
              && OnlyProperties(fields, members)
              && |row| == |fields|
              && forall i :: 0 <= i < |fields| ==> DecodeValue(fields[i], Lookup(members, fields[i].wire)) == Ok(row[i])
  {
    var empty := NoSlots(|fields|);
    ReadMembersSlots(fields, members, empty);
    var rm := ReadMembers(fields, members, empty);
    if rm.Ok? {
      var slots := rm.value;
      FinishIff(fields, slots, row);
      assert forall i :: 0 <= i < |fields| ==> slots[i] == Lookup(members, fields[i].wire);
    }
  }

  lemma {:induction false} LookupAbsent(fields: seq<Field>, row: seq<Scalar>, key: string)
    requires WellTyped(fields, row)
    requires forall i :: 0 <= i < |fields| ==> fields[i].wire != key
    ensures Lookup(EncodeRow(fields, row), key) == None
  {
    if |fields| > 0 {
      LookupAbsent(fields[1..], row[1..], key);
    }
  }

  /** In an encoded object, each property's name leads to exactly what that property encodes to. */
  lemma {:induction false} LookupEncoded(fields: seq<Field>, row: seq<Scalar>, i: nat)
    requires WellTyped(fields, row) && DistinctWires(fields) && i < |fields|
    ensures Lookup(EncodeRow(fields, row), fields[i].wire) == EncodeValue(fields[i].ty, row[i])
  {
    var rest := EncodeRow(fields[1..], row[1..]);
    if i == 0 {
      LookupAbsent(fields[1..], row[1..], fields[0].wire);
    } else {
      LookupEncoded(fields[1..], row[1..], i - 1);
    }
    if EncodeValue(fields[0].ty, row[0]).Some? {
      var j := EncodeValue(fields[0].ty, row[0]).value;
      assert ([(fields[0].wire, j)] + rest)[1..] == rest;
    }
  }

  /** An encoding has only members of the table, each holding a value its property accepts. */
  lemma {:induction false} EncodedOnlyProperties(fields: seq<Field>, row: seq<Scalar>)
    requires WellTyped(fields, row) && DistinctWires(fields)
    ensures OnlyProperties(fields, EncodeRow(fields, row))
  {
    var m := EncodeRow(fields, row);
    forall k | 0 <= k < |m| ensures Readable(fields, m[k]) {
      EncodedMember(fields, row, k);
      var i :| 0 <= i < |fields| && m[k].0 == fields[i].wire && EncodeValue(fields[i].ty, row[i]) == Some(m[k].1);
      IndexOfWire(fields, i);
      DecodeEncodedValue(fields[i], row[i]);
      AcceptsIff(fields[i], m[k].1);
    }
    OnlyPropertiesIff(fields, m);
  }

  /** With every property required, the encoding has one member per property, in declaration order. */
  lemma {:induction false} EncodeRowFull(fields: seq<Field>, row: seq<Scalar>)
    requires WellTyped(fields, row) && forall i :: 0 <= i < |fields| ==> fields[i].ty != OptionalString
    ensures |EncodeRow(fields, row)| == |fields|
    ensures forall k :: 0 <= k < |fields| ==>
              EncodeRow(fields, row)[k] == (fields[k].wire, EncodeValue(fields[k].ty, row[k]).value)
  {
    if |fields| > 0 {
      EncodeRowFull(fields[1..], row[1..]);
      assert forall k :: 0 < k < |fields| ==> fields[k] == fields[1..][k - 1] && row[k] == row[1..][k - 1];
    }
  }

  /** Each member of an encoding is some property's name with what that property encodes to. */
  lemma {:induction false} EncodedMember(fields: seq<Field>, row: seq<Scalar>, k: nat)
    requires WellTyped(fields, row) && k < |EncodeRow(fields, row)|
    ensures exists i :: 0 <= i < |fields| && EncodeRow(fields, row)[k].0 == fields[i].wire &&
                        EncodeValue(fields[i].ty, row[i]) == Some(EncodeRow(fields, row)[k].1)
  {
    var rest := EncodeRow(fields[1..], row[1..]);
    var e := EncodeValue(fields[0].ty, row[0]);
    if e.Some? && k == 0 {
      assert EncodeRow(fields, row)[0] == (fields[0].wire, e.value);
    } else {
      var k' := if e.Some? then k - 1 else k;
      assert EncodeRow(fields, row)[k] == rest[k'];
      EncodedMember(fields[1..], row[1..], k');
      var i' :| 0 <= i' < |fields[1..]| && rest[k'].0 == fields[1..][i'].wire &&
                EncodeValue(fields[1..][i'].ty, row[1..][i']) == Some(rest[k'].1);
      assert fields[i' + 1] == fields[1..][i'] && row[i' + 1] == row[1..][i'];
    }
  }

  /** For every well-typed row of a table with distinct names, decode(encode(row)) == row. */
  lemma RoundTrip(fields: seq<Field>, row: seq<Scalar>)
    requires WellTyped(fields, row) && DistinctWires(fields)
    ensures DecodeObject(fields, JObj(EncodeRow(fields, row))) == Ok(row)
  {
    var m := EncodeRow(fields, row);
    forall i | 0 <= i < |fields|
      ensures DecodeValue(fields[i], Lookup(m, fields[i].wire)) == Ok(row[i])
    {
      LookupEncoded(fields, row, i);
      DecodeEncodedValue(fields[i], row[i]);
    }
    EncodedOnlyProperties(fields, row);
    DecodeObjectIff(fields, m, row);
  }

  /** A required property whose name is absent makes the whole decode fail. */
  lemma MissingRequiredFails(fields: seq<Field>, members: seq<(string, Json)>, i: nat)
    requires DistinctWires(fields)
    requires i < |fields| && Required(fields[i]) && Lookup(members, fields[i].wire) == None
    ensures DecodeObject(fields, JObj(members)).Exn?
  {
    var r := DecodeObject(fields, JObj(members));
    if r.Ok? {
      DecodeObjectIff(fields, members, r.value);
    }
  }

  /** The entry a successful decode gives a property is what the last member under its name decodes to. */
  lemma DecodedAt(fields: seq<Field>, members: seq<(string, Json)>, i: nat)
    requires DistinctWires(fields)
    requires i < |fields| && DecodeObject(fields, JObj(members)).Ok?
    ensures DecodeValue(fields[i], Lookup(members, fields[i].wire)) == Ok(DecodeObject(fields, JObj(members)).value[i])
  {
    DecodeObjectIff(fields, members, DecodeObject(fields, JObj(members)).value);
  }

  /** Of two members with the same name the later decides: a member appended to an object overrides. */
  lemma LaterDuplicateWins(fields: seq<Field>, members: seq<(string, Json)>, i: nat, j: Json)
    requires DistinctWires(fields) && i < |fields|
    requires DecodeObject(fields, JObj(members + [(fields[i].wire, j)])).Ok?
    ensures DecodeMember(fields[i], j) == Ok(DecodeObject(fields, JObj(members + [(fields[i].wire, j)])).value[i])
  {
    LookupAppend(members, fields[i].wire, j, fields[i].wire);
    DecodedAt(fields, members + [(fields[i].wire, j)], i);
  }

  lemma {:induction false} StopsAt(fields: seq<Field>, m: seq<(string, Json)>, slots: seq<Option<Json>>, k: nat)
    requires |slots| == |fields| && k < |m|
    requires forall j :: 0 <= j < k ==> ReadMember(fields, m[j]).Ok?
    requires ReadMember(fields, m[k]).Exn?
    ensures ReadMembers(fields, m, slots) == Exn(ReadMember(fields, m[k]).cause)
    decreases k
  {
    assert forall j :: 0 < j < |m| ==> m[j] == m[1..][j - 1];
    if k > 0 {
      StopsAt(fields, m[1..], slots[ReadMember(fields, m[0]).value := Some(m[0].1)], k - 1);
    }
  }

  /**
   * The first member, in the object's own order, that cannot be read ends
   * the decode: its exception is the one reported, whatever follows it.
   */
  lemma FirstFailure(fields: seq<Field>, m: seq<(string, Json)>, k: nat)
    requires k < |m|
    requires forall j :: 0 <= j < k ==> ReadMember(fields, m[j]).Ok?
    requires ReadMember(fields, m[k]).Exn?
    ensures DecodeObject(fields, JObj(m)) == Exn(ReadMember(fields, m[k]).cause)
  {
    StopsAt(fields, m, NoSlots(|fields|), k);
  }

  /** A member named after no property, after members that can be read, is an unknown-key exception. */
  lemma UnknownKeyFails(fields: seq<Field>, m: seq<(string, Json)>, k: nat)
    requires k < |m|
    requires OnlyProperties(fields, m[..k])
    requires forall i :: 0 <= i < |fields| ==> fields[i].wire != m[k].0
    ensures DecodeObject(fields, JObj(m)) == Exn(UnknownKey(m[k].0))
  {
    OnlyPropertiesIff(fields, m[..k]);
    forall j | 0 <= j < k ensures ReadMember(fields, m[j]).Ok? {
      assert m[..k][j] == m[j];
      ReadMemberIff(fields, m[j]);
    }
    FirstFailure(fields, m, k);
  }

  lemma {:induction false} ReadMembersRefuse(fields: seq<Field>, m: seq<(string, Json)>, slots: seq<Option<Json>>, k: nat)
    requires |slots| == |fields| && k < |m|
    requires forall i :: 0 <= i < |fields| ==> fields[i].wire != m[k].0
    ensures ReadMembers(fields, m, slots).Exn?
    decreases k
  {
    if k > 0 && ReadMember(fields, m[0]).Ok? {
      assert m[1..][k - 1] == m[k];
      ReadMembersRefuse(fields, m[1..], slots[ReadMember(fields, m[0]).value := Some(m[0].1)], k - 1);
    }
  }

  /** An object with a member named after no property never decodes, wherever that member stands. */
  lemma UnknownKeyRefused(fields: seq<Field>, m: seq<(string, Json)>, k: nat)
    requires k < |m|
    requires forall i :: 0 <= i < |fields| ==> fields[i].wire != m[k].0
    ensures DecodeObject(fields, JObj(m)).Exn?
  {
    ReadMembersRefuse(fields, m, NoSlots(|fields|), k);
  }

  lemma {:induction false} FinishStops(fields: seq<Field>, slots: seq<Option<Json>>, i: nat)
    requires |slots| == |fields| && i < |fields|
    requires forall j :: 0 <= j < i ==> DecodeValue(fields[j], slots[j]).Ok?
    requires DecodeValue(fields[i], slots[i]).Exn?
    ensures Finish(fields, slots) == Exn(DecodeValue(fields[i], slots[i]).cause)
    decreases i
  {
    assert forall j :: 0 < j < |fields| ==> fields[j] == fields[1..][j - 1] && slots[j] == slots[1..][j - 1];
    if i > 0 {
      FinishStops(fields[1..], slots[1..], i - 1);
    }
  }

  /**
   * When every member can be read, the exception is for the first required
   * property, in declaration order, that never appeared.
   */
  lemma FirstMissing(fields: seq<Field>, m: seq<(string, Json)>, i: nat)
    requires DistinctWires(fields) && OnlyProperties(fields, m)
    requires i < |fields| && Required(fields[i]) && Lookup(m, fields[i].wire) == None
    requires forall j :: 0 <= j < i && Required(fields[j]) ==> Lookup(m, fields[j].wire).Some?
    ensures DecodeObject(fields, JObj(m)) == Exn(MissingField(fields[i].wire))
  {
    var empty := NoSlots(|fields|);
    ReadMembersSlots(fields, m, empty);
    var slots := ReadMembers(fields, m, empty).value;
    assert forall j :: 0 <= j < |fields| ==> slots[j] == Lookup(m, fields[j].wire);
    forall j | 0 <= j < i ensures DecodeValue(fields[j], slots[j]).Ok? {
      if slots[j].Some? {
        assert Readable(fields, (fields[j].wire, slots[j].value)) by {
          LookupReadable(fields, m, fields[j].wire);
        }
        IndexOfWire(fields, j);
        AcceptsIff(fields[j], slots[j].value);
      }
    }
    FinishStops(fields, slots, i);
  }

  // ---------------------------------------------------------------------------
  // What the last member under a name holds, one wire kind at a time; the
  // per-shape modules state their decoders in these terms.

  predicate CarriesString(members: seq<(string, Json)>, key: string, s: string) {
    Lookup(members, key) == Some(JStr(s))
  }

  /** An Int or Long: a JSON number, or a string holding a numeral, of value `n`. */
  predicate CarriesNumber(members: seq<(string, Json)>, key: string, n: int) {
    var found := Lookup(members, key);
    found.Some? && NumberIn(found.value) == Some(n)
  }

  /** A nullable string: present as that string, or absent or null for `null`. */
  predicate CarriesOptString(members: seq<(string, Json)>, key: string, o: Option<string>) {
    match o
    case Some(s) => Lookup(members, key) == Some(JStr(s))
    case None => Lookup(members, key) == None || Lookup(members, key) == Some(JNull)
  }

  /** A Long through StringLongSerializer: a JSON string that `toLong()` reads as `n`. */
  predicate CarriesDecimal(members: seq<(string, Json)>, key: string, n: Int64) {
    var found := Lookup(members, key);
    found.Some? && found.value.JStr? && StringLongSerializer.Deserialize(found.value.s) == Ok(n)
  }

  /** A Boolean through SnsSerializer: a JSON string that reads as `b`. */
  predicate CarriesFlag(members: seq<(string, Json)>, key: string, b: bool) {
    var found := Lookup(members, key);
    found.Some? && found.value.JStr? && SnsSerializer.Deserialize(found.value.s) == b
  }

  /** What the members must hold under one property's name for the property to decode to `v`. */
  predicate Holds(members: seq<(string, Json)>, f: Field, v: Scalar) {
    match f.ty
    case IntField => v.IntVal? && CarriesNumber(members, f.wire, v.i)
    case LongField => v.LongVal? && CarriesNumber(members, f.wire, v.l)
    case StringField => v.StrVal? && CarriesString(members, f.wire, v.s)
    case OptionalString => v.OptStrVal? && CarriesOptString(members, f.wire, v.o)
    case StringLong => v.LongVal? && CarriesDecimal(members, f.wire, v.l)
    case Sns => v.BoolVal? && CarriesFlag(members, f.wire, v.b)
  }

  lemma FieldIff(members: seq<(string, Json)>, f: Field, v: Scalar)
    ensures DecodeValue(f, Lookup(members, f.wire)) == Ok(v) <==> Holds(members, f, v)
  {
  }

  /** A successful decode from an object, in the terms of `OnlyProperties` and `Holds`. */
  lemma DecodeObjectHolds(fields: seq<Field>, members: seq<(string, Json)>, row: seq<Scalar>)
    requires DistinctWires(fields)
    ensures DecodeObject(fields, JObj(members)) == Ok(row) <==>
              && OnlyProperties(fields, members)
              && |row| == |fields|
              && forall i :: 0 <= i < |fields| ==> Holds(members, fields[i], row[i])
  {
    DecodeObjectIff(fields, members, row);
    forall i | 0 <= i < |fields| && i < |row|
      ensures DecodeValue(fields[i], Lookup(members, fields[i].wire)) == Ok(row[i]) <==> Holds(members, fields[i], row[i])
    {
      FieldIff(members, fields[i], row[i]);
    }
  }
}
