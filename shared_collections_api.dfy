/**
 * SharedCollectionsAPI: the endpoints for shared views, blocks and
 * moreblocks.  Each public method is one `Op`; `Endpoint` gives the request
 * it makes.  The private builders keep the source's names and parameters:
 * `tag` is the kind token and `tag2` the sort token of a listing.  Every
 * call goes through `postRequest`.
 */
module SharedCollectionsAPI {
  import opened Wrappers
  import opened Ints
  import opened Json
  import opened Responses
  import opened KtorUtils
  import opened Endpoints
  import opened GetSharedRequestBodySchema
  import opened GetSharedFileRequestBodySchema

  datatype Op =
    | RecentShared(kind: Kind, itemsToLoad: Int32, index: Int32)
    | MostLiked(kind: Kind, itemsToLoad: Int32, index: Int32)
    | MostLikedBody(kind: Kind, requestBody: GetSharedRequestBody)
    | MostDownloaded(kind: Kind, itemsToLoad: Int32, index: Int32)
    | MostDownloadedBody(kind: Kind, requestBody: GetSharedRequestBody)
    | SharedFile(kind: Kind, sharedId: Int32, fileName: string)
    | SharedFileBody(kind: Kind, fileBody: GetSharedFileRequestBody)
    | Details(kind: Kind, id: Int32)
    | Comments(kind: Kind, id: Int32)
    | Tags(kind: Kind, id: Int32)
    | AddComment(kind: Kind, sessionId: string, email: string, sharedId: Int32, comment: string)
    | SearchByTag(kind: Kind, itemsToLoad: Int32, index: Int32, tag: string)
    | AllTags
    | RemoveComment(kind: Kind, sessionId: string, email: string, sharedId: Int32, commentId: Int32)
    | AddDownload(kind: Kind, sharedId: Int32)
    | Like(kind: Kind, sessionId: string, email: string, sharedId: Int32)
    | Upload(sessionId: string, fileName: string, tag: string)
    | RemoveShared(kind: Kind, sharedId: Int32, sessionId: string, email: string)

  /** `mapOf("shared_id" to id)`. */
  function SharedIdBody(id: Int32): (j: Json)
    ensures Puts(j, "shared_id", JNum(id)) && |j.members| == 1
  {
    JObj([("shared_id", JNum(id))])
  }

  /** The session, the login and the shared item: the start of every authenticated body. */
  function SessionBody(sessionId: string, email: string, sharedId: Int32): seq<(string, Json)> {
    [("session_id", JStr(sessionId)), ("login_id", JStr(email)), ("shared_id", JNum(sharedId))]
  }

  /** A body that names the session, the e-mail as the login and the shared item. */
  predicate SendsSession(j: Json, sessionId: string, email: string, sharedId: Int32) {
    && Puts(j, "session_id", JStr(sessionId))
    && Puts(j, "login_id", JStr(email))
    && Puts(j, "shared_id", JNum(sharedId))
  }

  /** A POST through `postRequest` to `"$baseUrl/<path>.do"`. */
  function Wrapped(baseUrl: string, path: string, body: Option<Json>, result: ResultShape): Endpoint {
    Endpoint(Post, Url(baseUrl, path), body, result, true)
  }

  function GetShared(baseUrl: string, tag: string, tag2: string, requestBody: GetSharedRequestBody): (ep: Endpoint)
    ensures ep.verb == Post && ep.wrapped && ep.url == Url(baseUrl, ListingPath(tag2, tag))
    ensures ep.body == Some(GetSharedRequestBodySchema.Encode(requestBody))
    ensures ep.result == ListOf(BaseSharedEntity)
  {
    Wrapped(baseUrl, ListingPath(tag2, tag), Some(GetSharedRequestBodySchema.Encode(requestBody)), ListOf(BaseSharedEntity))
  }

  function GetMostDownloadedShared(baseUrl: string, tag: string, requestBody: GetSharedRequestBody): (ep: Endpoint)
    ensures ep.url == Url(baseUrl, ListingPath("DownCnt", tag))
    ensures ep.body == Some(GetSharedRequestBodySchema.Encode(requestBody))
    ensures ep.result == ListOf(BaseSharedEntity)
  {
    GetShared(baseUrl, tag, "DownCnt", requestBody)
  }

  function GetSharedFileCommon(baseUrl: string, tag: string, requestBody: GetSharedFileRequestBody): (ep: Endpoint)
    ensures ep.verb == Post && ep.wrapped && ep.url == Url(baseUrl, "downloadShared" + tag + "File")
    ensures ep.body == Some(GetSharedFileRequestBodySchema.Encode(requestBody))
    ensures ep.result == Bytes
  {
    Wrapped(baseUrl, "downloadShared" + tag + "File", Some(GetSharedFileRequestBodySchema.Encode(requestBody)), Bytes)
  }

  function GetSharedDetails(baseUrl: string, id: Int32, tag: string): (ep: Endpoint)
    ensures ep.verb == Post && ep.wrapped && ep.url == Url(baseUrl, "reqShared" + tag + "Detail")
    ensures ep.body.Some? && Puts(ep.body.value, "shared_id", JNum(id)) && |ep.body.value.members| == 1
    ensures ep.result == One(SharedDetailsEntity)
  {
    Wrapped(baseUrl, "reqShared" + tag + "Detail", Some(SharedIdBody(id)), One(SharedDetailsEntity))
  }

  function GetSharedComments(baseUrl: string, id: Int32, tag: string): (ep: Endpoint)
    ensures ep.verb == Post && ep.wrapped && ep.url == Url(baseUrl, "reqShared" + tag + "CommentsList")
    ensures ep.body.Some? && Puts(ep.body.value, "shared_id", JNum(id)) && |ep.body.value.members| == 1
    ensures ep.result == ListOf(SharedCommentEntity)
  {
    Wrapped(baseUrl, "reqShared" + tag + "CommentsList", Some(SharedIdBody(id)), ListOf(SharedCommentEntity))
  }

  function GetSharedTags(baseUrl: string, id: Int32, tag: string): (ep: Endpoint)
    ensures ep.verb == Post && ep.wrapped && ep.url == Url(baseUrl, "reqShared" + tag + "Tags")
    ensures ep.body.Some? && Puts(ep.body.value, "shared_id", JNum(id)) && |ep.body.value.members| == 1
    ensures ep.result == ListOf(SharedTagEntity)
  {
    Wrapped(baseUrl, "reqShared" + tag + "Tags", Some(SharedIdBody(id)), ListOf(SharedTagEntity))
  }

  function AddCommentToShared(baseUrl: string, tag: string, sessionId: string, email: string, sharedId: Int32, comment: string): (ep: Endpoint)
    ensures ep.verb == Post && ep.wrapped && ep.url == Url(baseUrl, "reqInsertShared" + tag + "Comment")
    ensures ep.body.Some? && SendsSession(ep.body.value, sessionId, email, sharedId)
    ensures ep.body.Some? && Puts(ep.body.value, "comment", JStr(comment)) && |ep.body.value.members| == 4
    ensures ep.result == Text
  {
    Wrapped(baseUrl, "reqInsertShared" + tag + "Comment", Some(JObj([("session_id", JStr(sessionId)), ("login_id", JStr(email)), ("shared_id", JNum(sharedId)), ("comment", JStr(comment))])), Text)
  }

  function SearchByTagShared(baseUrl: string, tag: string, requestBody: GetSharedRequestBody): (ep: Endpoint)
    ensures ep.verb == Post && ep.wrapped && ep.url == Url(baseUrl, "reqTagSearchShared" + tag)
    ensures ep.body == Some(GetSharedRequestBodySchema.Encode(requestBody))
    ensures ep.result == ListOf(BaseSharedEntity)
  {
    Wrapped(baseUrl, "reqTagSearchShared" + tag, Some(GetSharedRequestBodySchema.Encode(requestBody)), ListOf(BaseSharedEntity))
  }

  function RemoveSharedComment(baseUrl: string, tag: string, sessionId: string, email: string, sharedId: Int32, commentId: Int32): (ep: Endpoint)
    ensures ep.verb == Post && ep.wrapped && ep.url == Url(baseUrl, "reqDeleteShared" + tag + "Comment")
    ensures ep.body.Some? && SendsSession(ep.body.value, sessionId, email, sharedId)
    ensures ep.body.Some? && Puts(ep.body.value, "comment_id", JNum(commentId)) && |ep.body.value.members| == 4
    ensures ep.result == Text
  {
    Wrapped(baseUrl, "reqDeleteShared" + tag + "Comment", Some(JObj([("session_id", JStr(sessionId)), ("login_id", JStr(email)), ("shared_id", JNum(sharedId)), ("comment_id", JNum(commentId))])), Text)
  }

  function AddDownloadToShared(baseUrl: string, tag: string, sharedId: Int32): (ep: Endpoint)
    ensures ep.verb == Post && ep.wrapped && ep.url == Url(baseUrl, "reqShared" + tag + "DownCntAdd")
    ensures ep.body.Some? && Puts(ep.body.value, "shared_id", JNum(sharedId)) && |ep.body.value.members| == 1
    ensures ep.result == Text
  {
    Wrapped(baseUrl, "reqShared" + tag + "DownCntAdd", Some(SharedIdBody(sharedId)), Text)
  }

  function LikeSharedCollection(baseUrl: string, tag: string, sessionId: string, email: string, sharedId: Int32): (ep: Endpoint)
    ensures ep.verb == Post && ep.wrapped && ep.url == Url(baseUrl, "reqInsertShared" + tag + "Like")
    ensures ep.body.Some? && SendsSession(ep.body.value, sessionId, email, sharedId) && |ep.body.value.members| == 3
    ensures ep.result == Text
  {
    Wrapped(baseUrl, "reqInsertShared" + tag + "Like", Some(JObj(SessionBody(sessionId, email, sharedId))), Text)
  }

  function RemoveCollection(baseUrl: string, tag: string, sharedId: Int32, sessionId: string, email: string): (ep: Endpoint)
    ensures ep.verb == Post && ep.wrapped && ep.url == Url(baseUrl, "reqDeleteShared" + tag)
    ensures ep.body.Some? && SendsSession(ep.body.value, sessionId, email, sharedId) && |ep.body.value.members| == 3
    ensures ep.result == Text
  {
    Wrapped(baseUrl, "reqDeleteShared" + tag, Some(JObj(SessionBody(sessionId, email, sharedId))), Text)
  }

  /** The listing a `getMostLiked…(requestBody)` overload asks for: the Blocks one asks for MoreBlocks. */
  function MostLikedBodyKinds(k: Kind): string {
    match k
    case View => "Views"
    case MoreBlock => "MoreBlocks"
    case Block => "MoreBlocks"
  }

  /**
   * The request each public method makes.  Every one is a POST under the base
   * URL, and every one goes through `postRequest`.
   */
  function EndpointFor(baseUrl: string, op: Op): (ep: Endpoint)
    ensures ep.verb == Post && ep.wrapped
    ensures UnderBase(ep.url, baseUrl)
  {
    match op
    case RecentShared(k, n, i) => GetShared(baseUrl, Plural(k), "Recent", Paging(n, i))
    case MostLiked(k, n, i) =>
      if k == Block then GetShared(baseUrl, "Blocks", "LikeCnt", Paging(n, i))
      else GetShared(baseUrl, MostLikedBodyKinds(k), "LikeCnt", Paging(n, i))
    case MostLikedBody(k, b) => GetShared(baseUrl, MostLikedBodyKinds(k), "LikeCnt", b)
    case MostDownloaded(k, n, i) => GetMostDownloadedShared(baseUrl, Plural(k), Paging(n, i))
    case MostDownloadedBody(k, b) => GetMostDownloadedShared(baseUrl, Plural(k), b)
    case SharedFile(k, id, name) => GetSharedFileCommon(baseUrl, Singular(k), GetSharedFileRequestBody(id, name))
    case SharedFileBody(k, b) => GetSharedFileCommon(baseUrl, Singular(k), b)
    case Details(k, id) => GetSharedDetails(baseUrl, id, Singular(k))
    case Comments(k, id) => GetSharedComments(baseUrl, id, Singular(k))
    case Tags(k, id) => GetSharedTags(baseUrl, id, Singular(k))
    case AddComment(k, s, e, id, c) => AddCommentToShared(baseUrl, Singular(k), s, e, id, c)
    case SearchByTag(k, n, i, t) => SearchByTagShared(baseUrl, Plural(k), GetSharedRequestBody(n, i, Some(t)))
    case AllTags => Wrapped(baseUrl, "reqAllTags", Some(JObj([])), ListOf(SharedTagEntity))
    case RemoveComment(k, s, e, id, c) => RemoveSharedComment(baseUrl, Singular(k), s, e, id, c)
    case AddDownload(k, id) => AddDownloadToShared(baseUrl, Singular(k), id)
    case Like(k, s, e, id) => LikeSharedCollection(baseUrl, Singular(k), s, e, id)
    case Upload(_, _, t) => Wrapped(baseUrl, "uploadShare" + t + "File", None, Text)
    case RemoveShared(k, id, s, e) => RemoveCollection(baseUrl, Singular(k), id, s, e)
  }

  // ---------------------------------------------------------------------------
  // What the endpoints are

  /** The first page of recent views: ten items from the start, as `{"row_unit":10,"row_start":0}`. */
  lemma RecentViewsPage(baseUrl: string)
    ensures EndpointFor(baseUrl, RecentShared(View, 10, 0)) ==
              Endpoint(Post, baseUrl + "/reqRecentSharedViews.do",
                       Some(JObj([("row_unit", JNum(10)), ("row_start", JNum(0))])), ListOf(BaseSharedEntity), true)
  {
    GetSharedRequestBodySchema.EncodeLayout(Paging(10, 0));
    RecentViewsUrl(baseUrl);
  }

  lemma RecentViewsUrl(baseUrl: string)
    ensures Url(baseUrl, ListingPath("Recent", Plural(View))) == baseUrl + "/reqRecentSharedViews.do"
  {
    var path := ListingPath("Recent", Plural(View));
    assert path == "reqRecentSharedViews";
    assert Url(baseUrl, path) == baseUrl + ("/" + path + ".do");
  }

  /**
   * The Int overloads of the listings: `req<Sort>Shared<Kinds>.do` with the
   * sort tokens Recent, LikeCnt and DownCnt and the plural kind, and a paging
   * body whose tag is left out and decodes back to `null`.
   */
  lemma Listings(baseUrl: string, k: Kind, n: Int32, i: Int32)
    ensures EndpointFor(baseUrl, RecentShared(k, n, i)).url == Url(baseUrl, ListingPath("Recent", Plural(k)))
    ensures EndpointFor(baseUrl, MostLiked(k, n, i)).url == Url(baseUrl, ListingPath("LikeCnt", Plural(k)))
    ensures EndpointFor(baseUrl, MostDownloaded(k, n, i)).url == Url(baseUrl, ListingPath("DownCnt", Plural(k)))
    ensures forall op :: op in {RecentShared(k, n, i), MostLiked(k, n, i), MostDownloaded(k, n, i)} ==>
              && EndpointFor(baseUrl, op).body == Some(JObj([("row_unit", JNum(n)), ("row_start", JNum(i))]))
              && GetSharedRequestBodySchema.Decode(EndpointFor(baseUrl, op).body.value) == Ok(GetSharedRequestBody(n, i, None))
              && EndpointFor(baseUrl, op).result == ListOf(BaseSharedEntity)
  {
    GetSharedRequestBodySchema.EncodeLayout(Paging(n, i));
    GetSharedRequestBodySchema.RoundTrip(Paging(n, i));
  }

  /**
   * `getMostLikedSharedBlocks(requestBody)` asks for the MoreBlocks listing
   * while `getMostLikedSharedBlocks(itemsToLoad, index)` asks for Blocks; for
   * views and moreblocks the two overloads make the same request.
   */
  lemma MostLikedOverloads(baseUrl: string, k: Kind, n: Int32, i: Int32, b: GetSharedRequestBody)
    ensures EndpointFor(baseUrl, MostLikedBody(Block, b)).url == Url(baseUrl, "reqLikeCntSharedMoreBlocks")
    ensures EndpointFor(baseUrl, MostLiked(Block, n, i)).url == Url(baseUrl, "reqLikeCntSharedBlocks")
    ensures EndpointFor(baseUrl, MostLiked(Block, n, i)) != EndpointFor(baseUrl, MostLikedBody(Block, Paging(n, i)))
    ensures k != Block ==> EndpointFor(baseUrl, MostLiked(k, n, i)) == EndpointFor(baseUrl, MostLikedBody(k, Paging(n, i)))
  {
    var blocks := EndpointFor(baseUrl, MostLiked(Block, n, i));
    var moreBlocks := EndpointFor(baseUrl, MostLikedBody(Block, Paging(n, i)));
    assert ListingPath("LikeCnt", "Blocks") == "reqLikeCntSharedBlocks";
    assert ListingPath("LikeCnt", "MoreBlocks") == "reqLikeCntSharedMoreBlocks";
    assert |blocks.url| != |moreBlocks.url|;
  }

  /** Both overloads of every most-downloaded listing make the same request. */
  lemma MostDownloadedOverloads(baseUrl: string, k: Kind, n: Int32, i: Int32)
    ensures EndpointFor(baseUrl, MostDownloaded(k, n, i)) == EndpointFor(baseUrl, MostDownloadedBody(k, Paging(n, i)))
  {
  }

  /**
   * Details, comments and tags of one item: the singular kind in the URL,
   * exactly `{"shared_id": id}` as the body, and the shape decoded.
   */
  lemma PerItemReads(baseUrl: string, k: Kind, id: Int32)
    ensures EndpointFor(baseUrl, Details(k, id)) ==
              Endpoint(Post, Url(baseUrl, "reqShared" + Singular(k) + "Detail"), Some(JObj([("shared_id", JNum(id))])), One(SharedDetailsEntity), true)
    ensures EndpointFor(baseUrl, Comments(k, id)) ==
              Endpoint(Post, Url(baseUrl, "reqShared" + Singular(k) + "CommentsList"), Some(JObj([("shared_id", JNum(id))])), ListOf(SharedCommentEntity), true)
    ensures EndpointFor(baseUrl, Tags(k, id)) ==
              Endpoint(Post, Url(baseUrl, "reqShared" + Singular(k) + "Tags"), Some(JObj([("shared_id", JNum(id))])), ListOf(SharedTagEntity), true)
  {
  }

  /**
   * A file download: `downloadShared<Kind>File.do` with the body
   * `{"shared_id": id, "file_name": name}`, the same for both overloads, and
   * the reply taken as bytes.
   */
  lemma FileDownload(baseUrl: string, k: Kind, id: Int32, name: string)
    ensures EndpointFor(baseUrl, SharedFile(k, id, name)) == EndpointFor(baseUrl, SharedFileBody(k, GetSharedFileRequestBody(id, name)))
    ensures EndpointFor(baseUrl, SharedFile(k, id, name)) ==
              Endpoint(Post, Url(baseUrl, "downloadShared" + Singular(k) + "File"),
                       Some(JObj([("shared_id", JNum(id)), ("file_name", JStr(name))])), Bytes, true)
  {
    GetSharedFileRequestBodySchema.EncodeLayout(GetSharedFileRequestBody(id, name));
  }

  /**
   * Posting a comment sends session_id, login_id (the e-mail), shared_id and
   * comment; deleting one sends the same first three with comment_id last.
   */
  lemma CommentBodies(baseUrl: string, k: Kind, sid: string, email: string, id: Int32, comment: string, commentId: Int32)
    ensures EndpointFor(baseUrl, AddComment(k, sid, email, id, comment)).body ==
              Some(JObj([("session_id", JStr(sid)), ("login_id", JStr(email)), ("shared_id", JNum(id)), ("comment", JStr(comment))]))
    ensures EndpointFor(baseUrl, RemoveComment(k, sid, email, id, commentId)).body ==
              Some(JObj([("session_id", JStr(sid)), ("login_id", JStr(email)), ("shared_id", JNum(id)), ("comment_id", JNum(commentId))]))
    ensures EndpointFor(baseUrl, AddComment(k, sid, email, id, comment)).url == Url(baseUrl, "reqInsertShared" + Singular(k) + "Comment")
    ensures EndpointFor(baseUrl, RemoveComment(k, sid, email, id, commentId)).url == Url(baseUrl, "reqDeleteShared" + Singular(k) + "Comment")
  {
    AddCommentSends(baseUrl, k, sid, email, id, comment);
    RemoveCommentSends(baseUrl, k, sid, email, id, commentId);
  }

  lemma AddCommentSends(baseUrl: string, k: Kind, sid: string, email: string, id: Int32, comment: string)
    ensures EndpointFor(baseUrl, AddComment(k, sid, email, id, comment)).body ==
              Some(JObj([("session_id", JStr(sid)), ("login_id", JStr(email)), ("shared_id", JNum(id)), ("comment", JStr(comment))]))
  {
    var ep := AddCommentToShared(baseUrl, Singular(k), sid, email, id, comment);
    assert EndpointFor(baseUrl, AddComment(k, sid, email, id, comment)) == ep;
  }

  lemma RemoveCommentSends(baseUrl: string, k: Kind, sid: string, email: string, id: Int32, commentId: Int32)
    ensures EndpointFor(baseUrl, RemoveComment(k, sid, email, id, commentId)).body ==
              Some(JObj([("session_id", JStr(sid)), ("login_id", JStr(email)), ("shared_id", JNum(id)), ("comment_id", JNum(commentId))]))
  {
    var ep := RemoveSharedComment(baseUrl, Singular(k), sid, email, id, commentId);
    assert EndpointFor(baseUrl, RemoveComment(k, sid, email, id, commentId)) == ep;
  }

  /** A tag search posts to `reqTagSearchShared<Kinds>.do`, the tag carried as `tag_text` in the body. */
  lemma TagSearch(baseUrl: string, k: Kind, n: Int32, i: Int32, tag: string)
    ensures EndpointFor(baseUrl, SearchByTag(k, n, i, tag)).url == Url(baseUrl, "reqTagSearchShared" + Plural(k))
    ensures EndpointFor(baseUrl, SearchByTag(k, n, i, tag)).body ==
              Some(JObj([("row_unit", JNum(n)), ("row_start", JNum(i)), ("tag_text", JStr(tag))]))
    ensures GetSharedRequestBodySchema.Decode(EndpointFor(baseUrl, SearchByTag(k, n, i, tag)).body.value) ==
              Ok(GetSharedRequestBody(n, i, Some(tag)))
  {
    GetSharedRequestBodySchema.EncodeLayout(GetSharedRequestBody(n, i, Some(tag)));
    GetSharedRequestBodySchema.RoundTrip(GetSharedRequestBody(n, i, Some(tag)));
  }

  /**
   * Counting a download sends only shared_id; liking and removing an item
   * send session_id, login_id and shared_id.
   */
  lemma ItemActions(baseUrl: string, k: Kind, sid: string, email: string, id: Int32)
    ensures EndpointFor(baseUrl, AddDownload(k, id)).body == Some(JObj([("shared_id", JNum(id))]))
    ensures EndpointFor(baseUrl, AddDownload(k, id)).url == Url(baseUrl, "reqShared" + Singular(k) + "DownCntAdd")
    ensures EndpointFor(baseUrl, Like(k, sid, email, id)).body ==
              Some(JObj([("session_id", JStr(sid)), ("login_id", JStr(email)), ("shared_id", JNum(id))]))
    ensures EndpointFor(baseUrl, Like(k, sid, email, id)).url == Url(baseUrl, "reqInsertShared" + Singular(k) + "Like")
    ensures EndpointFor(baseUrl, RemoveShared(k, id, sid, email)).body ==
              Some(JObj([("session_id", JStr(sid)), ("login_id", JStr(email)), ("shared_id", JNum(id))]))
    ensures EndpointFor(baseUrl, RemoveShared(k, id, sid, email)).url == Url(baseUrl, "reqDeleteShared" + Singular(k))
  {
  }

  /** The upload sends no body: the session id and file name play no part in the request. */
  lemma UploadSendsNoBody(baseUrl: string, sid: string, name: string, sid': string, name': string, tag: string)
    ensures EndpointFor(baseUrl, Upload(sid, name, tag)).body == None
    ensures EndpointFor(baseUrl, Upload(sid, name, tag)) == EndpointFor(baseUrl, Upload(sid', name', tag))
    ensures EndpointFor(baseUrl, Upload(sid, name, tag)).url == Url(baseUrl, "uploadShare" + tag + "File")
  {
  }

  /** Whatever the transport does, every call of this API comes back as a Response; a failure as its error. */
  lemma FailureIsCaptured(transport: Request -> Outcome<Payload>, baseUrl: string, op: Op)
    requires transport(RequestOf(EndpointFor(baseUrl, op))).Exn?
    ensures Invoke(transport, EndpointFor(baseUrl, op)).Captured?
    ensures Invoke(transport, EndpointFor(baseUrl, op)).exchange.response ==
              Response(None, Some(transport(RequestOf(EndpointFor(baseUrl, op))).cause))
  {
    WrappedCapturesFailure(transport, EndpointFor(baseUrl, op));
  }
}
