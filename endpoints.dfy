/**
 * What the façades have in common: the kind tokens spliced into URL
 * templates, the result shapes a call decodes its reply into, and one
 * endpoint descriptor (method, URL, body, result shape, and whether the call
 * goes through `postRequest`/`getRequest` or straight to the client).
 * `Invoke` runs a descriptor against a transport.
 */
module Endpoints {
  import opened Wrappers
  import opened Ints
  import opened Json
  import opened Schema
  import opened Responses
  import opened KtorUtils
  import BaseSharedSchema
  import SharedDetailsSchema
  import SharedCommentSchema
  import SharedTagSchema
  import SharedProjectSchema
  import ExportedApkSchema
  import AuthorizedModelSchema

  /** A collection kind: a view, a block or a moreblock. */
  datatype Kind = View | Block | MoreBlock

  /** The singular token of the detail, comment, tag, file, like and removal URLs. */
  function Singular(k: Kind): string {
    match k
    case View => "View"
    case Block => "Block"
    case MoreBlock => "MoreBlock"
  }

  /** The plural token of the listing and tag-search URLs. */
  function Plural(k: Kind): string {
    match k
    case View => "Views"
    case Block => "Blocks"
    case MoreBlock => "MoreBlocks"
  }

  /** Each plural is its singular with an "s", and distinct kinds have distinct tokens. */
  lemma KindTokens(k: Kind, k': Kind)
    ensures Plural(k) == Singular(k) + "s"
    ensures Singular(k) == Singular(k') <==> k == k'
    ensures Plural(k) == Plural(k') <==> k == k'
  {
  }

  /** A URL of the form `"$baseUrl/<path>.do"`. */
  predicate UnderBase(url: string, base: string) {
    |url| >= |base| + 4 && url[..|base| + 1] == base + "/" && url[|url| - 3..] == ".do"
  }

  /** `"$baseUrl/<path>.do"`. */
  function Url(base: string, path: string): (u: string)
    ensures UnderBase(u, base)
  {
    base + "/" + path + ".do"
  }

  /** `"req${sort}Shared${kinds}"`, the path of a listing. */
  function ListingPath(sort: string, kinds: string): string {
    "req" + sort + "Shared" + kinds
  }

  /** The URL keeps the base and the path apart: both can be read back from it. */
  lemma UrlParts(base: string, path: string)
    ensures |Url(base, path)| == |base| + |path| + 4
    ensures Url(base, path)[..|base|] == base
    ensures Url(base, path)[|base|..|base| + 1] == "/"
    ensures Url(base, path)[|base| + 1..|base| + 1 + |path|] == path
    ensures Url(base, path)[|base| + 1 + |path|..] == ".do"
  {
  }

  /** Two URLs under the same base are equal exactly when their paths are. */
  lemma UrlInjective(base: string, path: string, path': string)
    ensures Url(base, path) == Url(base, path') <==> path == path'
  {
    if Url(base, path) == Url(base, path') {
      UrlParts(base, path);
      UrlParts(base, path');
    }
  }

  // ---------------------------------------------------------------------------
  // What a call decodes its reply into

  /** A model class a reply may decode to. */
  datatype Entity =
    | BaseSharedEntity
    | SharedDetailsEntity
    | SharedCommentEntity
    | SharedTagEntity
    | SharedProjectEntity
    | ExportedApkEntity
    | AuthorizedModelEntity

  datatype Record =
    | BaseSharedRecord(baseShared: BaseSharedSchema.BaseShared)
    | SharedDetailsRecord(details: SharedDetailsSchema.SharedDetails)
    | SharedCommentRecord(comment: SharedCommentSchema.SharedComment)
    | SharedTagRecord(tag: SharedTagSchema.SharedTag)
    | SharedProjectRecord(project: SharedProjectSchema.SharedProject)
    | ExportedApkRecord(apk: ExportedApkSchema.ExportedApk)
    | AuthorizedModelRecord(account: AuthorizedModelSchema.AuthorizedModel)

  function EntityOf(r: Record): Entity {
    match r
    case BaseSharedRecord(_) => BaseSharedEntity
    case SharedDetailsRecord(_) => SharedDetailsEntity
    case SharedCommentRecord(_) => SharedCommentEntity
    case SharedTagRecord(_) => SharedTagEntity
    case SharedProjectRecord(_) => SharedProjectEntity
    case ExportedApkRecord(_) => ExportedApkEntity
    case AuthorizedModelRecord(_) => AuthorizedModelEntity
  }

  /** The type argument of a call: `List<E>`, `E`, `ByteArray`, `String` or `Int`. */
  datatype ResultShape = ListOf(entity: Entity) | One(entity: Entity) | Bytes | Text | Number

  datatype Value =
    | Many(records: seq<Record>)
    | Single(record: Record)
    | BytesValue(bytes: seq<bv8>)
    | TextValue(text: string)
    | NumberValue(n: Int32)

  /** The body of a reply as the transport delivers it. */
  datatype Payload = JsonPayload(json: Json) | BytesPayload(bytes: seq<bv8>) | TextPayload(text: string)

  /** The property table of each entity. */
  function FieldsOf(e: Entity): seq<Field> {
    match e
    case BaseSharedEntity => BaseSharedSchema.Fields
    case SharedDetailsEntity => SharedDetailsSchema.Fields
    case SharedCommentEntity => SharedCommentSchema.Fields
    case SharedTagEntity => SharedTagSchema.Fields
    case SharedProjectEntity => SharedProjectSchema.Fields
    case ExportedApkEntity => ExportedApkSchema.Fields
    case AuthorizedModelEntity => AuthorizedModelSchema.Fields
  }

  /** The record of an entity that a well-typed row of its table stands for. */
  function ToRecord(e: Entity, row: seq<Scalar>): (r: Record)
    requires WellTyped(FieldsOf(e), row)
    ensures EntityOf(r) == e
  {
    match e
    case BaseSharedEntity => BaseSharedRecord(BaseSharedSchema.FromRow(row))
    case SharedDetailsEntity => SharedDetailsRecord(SharedDetailsSchema.FromRow(row))
    case SharedCommentEntity => SharedCommentRecord(SharedCommentSchema.FromRow(row))
    case SharedTagEntity => SharedTagRecord(SharedTagSchema.FromRow(row))
    case SharedProjectEntity => SharedProjectRecord(SharedProjectSchema.FromRow(row))
    case ExportedApkEntity => ExportedApkRecord(ExportedApkSchema.FromRow(row))
    case AuthorizedModelEntity => AuthorizedModelRecord(AuthorizedModelSchema.FromRow(row))
  }

  /** One object decoded as entity `e`: the shape's own `Decode`, read through its property table. */
  function DecodeEntity(e: Entity, j: Json): (r: Outcome<Record>)
    ensures r.Ok? ==> EntityOf(r.value) == e
  {
    match DecodeObject(FieldsOf(e), j)
    case Ok(row) => Ok(ToRecord(e, row))
    case Exn(c) => Exn(c)
  }

  /** The row of a record, in its entity's table; the record is what that row stands for. */
  function RowOf(r: Record): (row: seq<Scalar>)
    ensures WellTyped(FieldsOf(EntityOf(r)), row)
    ensures ToRecord(EntityOf(r), row) == r
  {
    match r
    case BaseSharedRecord(v) => BaseSharedSchema.Row(v)
    case SharedDetailsRecord(v) => SharedDetailsSchema.Row(v)
    case SharedCommentRecord(v) => SharedCommentSchema.Row(v)
    case SharedTagRecord(v) => SharedTagSchema.Row(v)
    case SharedProjectRecord(v) => SharedProjectSchema.Row(v)
    case ExportedApkRecord(v) => ExportedApkSchema.Row(v)
    case AuthorizedModelRecord(v) => AuthorizedModelSchema.Row(v)
  }

  /** No entity's table has two properties of one wire name. */
  lemma FieldsDistinct(e: Entity)
    ensures DistinctWires(FieldsOf(e))
  {
    match e
    case BaseSharedEntity => BaseSharedSchema.WiresDistinct();
    case SharedDetailsEntity => SharedDetailsSchema.WiresDistinct();
    case SharedCommentEntity => SharedCommentSchema.WiresDistinct();
    case SharedTagEntity => assert DistinctWires(SharedTagSchema.Fields);
    case SharedProjectEntity => SharedProjectSchema.WiresDistinct();
    case ExportedApkEntity => ExportedApkSchema.WiresDistinct();
    case AuthorizedModelEntity => AuthorizedModelSchema.WiresDistinct();
  }

  /** A record encoded as its shape's own `Encode` does. */
  function EncodeEntity(r: Record): Json {
    JObj(EncodeRow(FieldsOf(EntityOf(r)), RowOf(r)))
  }

  /** Every record decodes back from its encoding, as its own entity. */
  lemma EntityRoundTrip(r: Record)
    ensures DecodeEntity(EntityOf(r), EncodeEntity(r)) == Ok(r)
  {
    FieldsDistinct(EntityOf(r));
    Schema.RoundTrip(FieldsOf(EntityOf(r)), RowOf(r));
  }

  /** Outcomes gathered in order into one, the first failure winning. */
  function Collect<T>(outs: seq<Outcome<T>>): (r: Outcome<seq<T>>)
    ensures r.Ok? ==> |r.value| == |outs|
  {
    if |outs| == 0 then Ok([])
    else
      match outs[0]
      case Exn(c) => Exn(c)
      case Ok(x) =>
        match Collect(outs[1..])
        case Exn(c) => Exn(c)
        case Ok(xs) => Ok([x] + xs)
  }

  /** Gathering succeeds with `xs` exactly when every outcome is the success at its position. */
  lemma {:induction false} CollectIff<T>(outs: seq<Outcome<T>>, xs: seq<T>)
    ensures Collect(outs) == Ok(xs) <==> |xs| == |outs| && forall i :: 0 <= i < |outs| ==> outs[i] == Ok(xs[i])
  {
    if |outs| > 0 && |xs| == |outs| {
      CollectIff(outs[1..], xs[1..]);
      assert xs == [xs[0]] + xs[1..];
      assert forall i :: 0 < i < |outs| ==> outs[i] == outs[1..][i - 1] && xs[i] == xs[1..][i - 1];
    }
  }

  /** The elements of a JSON array decoded one by one, the first failure winning. */
  function DecodeAll(e: Entity, items: seq<Json>): (r: Outcome<seq<Record>>)
    ensures r.Ok? ==> |r.value| == |items|
  {
    Collect(seq(|items|, i requires 0 <= i < |items| => DecodeEntity(e, items[i])))
  }

  /** A list decodes to exactly the records its elements decode to, element by element. */
  lemma DecodeAllIff(e: Entity, items: seq<Json>, rs: seq<Record>)
    ensures DecodeAll(e, items) == Ok(rs) <==>
              |rs| == |items| && forall i :: 0 <= i < |items| ==> DecodeEntity(e, items[i]) == Ok(rs[i])
  {
    CollectIff(seq(|items|, i requires 0 <= i < |items| => DecodeEntity(e, items[i])), rs);
  }

  function EncodeAll(rs: seq<Record>): (js: seq<Json>)
    ensures |js| == |rs| && forall i :: 0 <= i < |rs| ==> js[i] == EncodeEntity(rs[i])
  {
    if |rs| == 0 then []
    else
      var rest := EncodeAll(rs[1..]);
      assert forall i :: 0 < i < |rs| ==> rs[i] == rs[1..][i - 1];
      [EncodeEntity(rs[0])] + rest
  }

  /** A list of records of one entity decodes back from the array of their encodings. */
  lemma ListRoundTrip(e: Entity, rs: seq<Record>)
    requires forall i :: 0 <= i < |rs| ==> EntityOf(rs[i]) == e
    ensures DecodeAll(e, EncodeAll(rs)) == Ok(rs)
  {
    forall i | 0 <= i < |rs| ensures DecodeEntity(e, EncodeAll(rs)[i]) == Ok(rs[i]) {
      EntityRoundTrip(rs[i]);
    }
    DecodeAllIff(e, EncodeAll(rs), rs);
  }

  /** The client's decoding of a reply into the call's type argument; a mismatch is an exception. */
  function Receive(shape: ResultShape, p: Payload): (r: Outcome<Value>)
    ensures r.Ok? && shape.ListOf? ==> r.value.Many? && forall i :: 0 <= i < |r.value.records| ==> EntityOf(r.value.records[i]) == shape.entity
    ensures r.Ok? && shape.One? ==> r.value.Single? && EntityOf(r.value.record) == shape.entity
    ensures r.Ok? && shape.Bytes? ==> r.value.BytesValue? && p == BytesPayload(r.value.bytes)
    ensures r.Ok? && shape.Text? ==> r.value.TextValue? && p == TextPayload(r.value.text)
  {
    match shape
    case ListOf(e) =>
      if p.JsonPayload? && p.json.JArr? then
        match DecodeAll(e, p.json.items)
        case Ok(rs) =>
          DecodeAllIff(e, p.json.items, rs);
          Ok(Many(rs))
        case Exn(c) => Exn(c)
      else Exn(UnexpectedBody)
    case One(e) =>
      if p.JsonPayload? then
        match DecodeEntity(e, p.json)
        case Ok(r) => Ok(Single(r))
        case Exn(c) => Exn(c)
      else Exn(UnexpectedBody)
    case Bytes => if p.BytesPayload? then Ok(BytesValue(p.bytes)) else Exn(UnexpectedBody)
    case Text => if p.TextPayload? then Ok(TextValue(p.text)) else Exn(UnexpectedBody)
    case Number =>
      if p.JsonPayload? && p.json.JNum? && IsInt32(p.json.n) then Ok(NumberValue(p.json.n)) else Exn(UnexpectedBody)
  }

  /** A single-record call refuses any JSON array, a listing of records included. */
  lemma OneRefusesArray(e: Entity, items: seq<Json>)
    ensures Receive(One(e), JsonPayload(JArr(items))) == Exn(UnexpectedBody)
  {
  }

  /** A list call decodes the array of any records' encodings back to those records. */
  lemma ReceiveList(e: Entity, rs: seq<Record>)
    requires forall i :: 0 <= i < |rs| ==> EntityOf(rs[i]) == e
    ensures Receive(ListOf(e), JsonPayload(JArr(EncodeAll(rs)))) == Ok(Many(rs))
  {
    ListRoundTrip(e, rs);
  }

  // ---------------------------------------------------------------------------
  // Descriptors and their invocation

  /**
   * One endpoint: `wrapped` tells whether the call goes through
   * `postRequest`/`getRequest` (a Response comes back) or straight to the
   * client (an exception escapes to the caller).
   */
  datatype Endpoint = Endpoint(verb: HttpMethod, url: string, body: Option<Json>, result: ResultShape, wrapped: bool)

  /** What calling an endpoint gives its caller. */
  datatype Reply =
    | Captured(exchange: Exchange<Value>)
    | Direct(sent: seq<Request>, outcome: Outcome<Value>)

  function RequestOf(ep: Endpoint): Request {
    Request(ep.verb, ep.url, ep.body)
  }

  /** The client call for an endpoint: the transport, then decoding into the result shape. */
  function Call(transport: Request -> Outcome<Payload>, shape: ResultShape): Request -> Outcome<Value> {
    (req: Request) =>
      match transport(req)
      case Ok(p) => Receive(shape, p)
      case Exn(c) => Exn(c)
  }

  function Invoke(transport: Request -> Outcome<Payload>, ep: Endpoint): (r: Reply)
    ensures ep.wrapped <==> r.Captured?
    ensures r.Captured? ==> r.exchange.sent == [RequestOf(ep)] && OneSided(r.exchange.response)
    ensures r.Direct? ==> r.sent == [RequestOf(ep)]
  {
    var send := Call(transport, ep.result);
    if !ep.wrapped then Direct([RequestOf(ep)], send(RequestOf(ep)))
    else
      match ep.verb
      case Post => Captured(PostRequest(send, ep.url, ep.body))
      case Get => Captured(GetRequest(send, ep.url, ep.body))
  }

  /** The outcome an invocation stands for, whichever way it returns. */
  function OutcomeOf(r: Reply): Outcome<Value> {
    match r
    case Captured(x) => if OneSided(x.response) then ToOutcome(x.response) else Exn(UnexpectedBody)
    case Direct(_, o) => o
  }

  /**
   * Wrapped or not, an invocation stands for the transport's outcome followed
   * by decoding: a transport failure comes back verbatim, a reply is decoded.
   */
  lemma InvokeOutcome(transport: Request -> Outcome<Payload>, ep: Endpoint)
    ensures OutcomeOf(Invoke(transport, ep)) ==
              match transport(RequestOf(ep))
              case Ok(p) => Receive(ep.result, p)
              case Exn(c) => Exn(c)
  {
  }

  /** A wrapped endpoint never lets a failure escape: it comes back as the error of the Response. */
  lemma WrappedCapturesFailure(transport: Request -> Outcome<Payload>, ep: Endpoint)
    requires ep.wrapped && transport(RequestOf(ep)).Exn?
    ensures Invoke(transport, ep).Captured?
    ensures Invoke(transport, ep).exchange.response == Response(None, Some(transport(RequestOf(ep)).cause))
  {
    var r := Invoke(transport, ep).exchange.response;
    CaptureBijective(Call(transport, ep.result)(RequestOf(ep)), r);
  }

  /** An unwrapped endpoint hands a failure to its caller as the exception itself. */
  lemma DirectPropagatesFailure(transport: Request -> Outcome<Payload>, ep: Endpoint)
    requires !ep.wrapped && transport(RequestOf(ep)).Exn?
    ensures Invoke(transport, ep) == Direct([RequestOf(ep)], Exn(transport(RequestOf(ep)).cause))
  {
  }
}
