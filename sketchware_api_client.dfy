/**
 * SketchwareAPIClient: the older top-level client, which repeats most of the
 * façade endpoints with its own builders and differs from them in a few
 * places: the most-downloaded sort token is "downCnt", the login URL is
 * fixed, the file download and the version check are not wrapped, and
 * comments and tags decode a single record.  The construction of the
 * underlying HTTP client is not part of this model.
 */
module SketchwareAPIClient {
  import opened Wrappers
  import opened Ints
  import opened Json
  import opened Responses
  import opened KtorUtils
  import opened Endpoints
  import opened GetSharedRequestBodySchema
  import opened GetSharedFileRequestBodySchema
  import SharedCollectionsAPI
  import UserAPI
  import ProjectsAPI

  /** The base URL a client built without arguments uses. */
  const DefaultBaseUrl: string := "http://sketchware.io"

  /** Where the login goes, whatever the base URL. */
  const AuthorizeUrl: string := "https://sketchware.io/registerSnsUser.do"

  datatype Op =
    | MinSketchwareVersion
    | RecentShared(kind: Kind, itemsToLoad: Int32, index: Int32)
    | MostLiked(kind: Kind, itemsToLoad: Int32, index: Int32)
    | MostLikedBody(kind: Kind, requestBody: GetSharedRequestBody)
    | MostDownloaded(kind: Kind, itemsToLoad: Int32, index: Int32)
    | MostDownloadedBody(kind: Kind, requestBody: GetSharedRequestBody)
    | SharedViewFile(sharedId: Int32, fileName: string)
    | SharedViewFileBody(fileBody: GetSharedFileRequestBody)
    | Details(kind: Kind, id: Int32)
    | Comments(kind: Kind, id: Int32)
    | Tags(kind: Kind, id: Int32)
    | Project(id: Int32)
    | ProjectExportedFile(fileName: string, userId: Int32, urlId: Int32)
    | AddComment(kind: Kind, sessionId: string, email: string, sharedId: Int32, comment: string)
    | SearchByTag(kind: Kind, itemsToLoad: Int32, index: Int32, tag: string)
    | AllTags
    | RemoveComment(kind: Kind, sessionId: string, email: string, sharedId: Int32, commentId: Int32)
    | AuthorizeUser(email: string, deviceId: string, accessToken: string, gcmId: string)

  /** A call through `postRequest`. */
  function Wrapped(url: string, body: Option<Json>, result: ResultShape): Endpoint {
    Endpoint(Post, url, body, result, true)
  }

  function GetShared(baseUrl: string, tag: string, tag2: string, requestBody: GetSharedRequestBody): (ep: Endpoint)
    ensures ep.verb == Post && ep.wrapped && ep.url == Url(baseUrl, ListingPath(tag2, tag))
    ensures ep.body == Some(GetSharedRequestBodySchema.Encode(requestBody))
    ensures ep.result == ListOf(BaseSharedEntity)
  {
    Wrapped(Url(baseUrl, ListingPath(tag2, tag)), Some(GetSharedRequestBodySchema.Encode(requestBody)), ListOf(BaseSharedEntity))
  }

  function GetMostDownloadedShared(baseUrl: string, tag: string, requestBody: GetSharedRequestBody): (ep: Endpoint)
    ensures ep.url == Url(baseUrl, ListingPath("downCnt", tag))
    ensures ep.body == Some(GetSharedRequestBodySchema.Encode(requestBody))
    ensures ep.result == ListOf(BaseSharedEntity)
  {
    GetShared(baseUrl, tag, "downCnt", requestBody)
  }

  /** A direct `httpClient.post`: not wrapped. */
  function GetSharedFileCommon(baseUrl: string, tag: string, requestBody: GetSharedFileRequestBody): (ep: Endpoint)
    ensures ep.verb == Post && !ep.wrapped && ep.url == Url(baseUrl, "downloadShared" + tag + "File")
    ensures ep.body == Some(GetSharedFileRequestBodySchema.Encode(requestBody))
    ensures ep.result == Bytes
  {
    Endpoint(Post, Url(baseUrl, "downloadShared" + tag + "File"), Some(GetSharedFileRequestBodySchema.Encode(requestBody)), Bytes, false)
  }

  function GetSharedDetails(baseUrl: string, id: Int32, tag: string): (ep: Endpoint)
    ensures ep.verb == Post && ep.wrapped && ep.url == Url(baseUrl, "reqShared" + tag + "Detail")
    ensures ep.body.Some? && Puts(ep.body.value, "shared_id", JNum(id)) && |ep.body.value.members| == 1
    ensures ep.result == One(SharedDetailsEntity)
  {
    Wrapped(Url(baseUrl, "reqShared" + tag + "Detail"), Some(JObj([("shared_id", JNum(id))])), One(SharedDetailsEntity))
  }

  /** Declared for one SharedComment, not a list. */
  function GetSharedComments(baseUrl: string, id: Int32, tag: string): (ep: Endpoint)
    ensures ep.verb == Post && ep.wrapped && ep.url == Url(baseUrl, "reqShared" + tag + "CommentsList")
    ensures ep.body.Some? && Puts(ep.body.value, "shared_id", JNum(id)) && |ep.body.value.members| == 1
    ensures ep.result == One(SharedCommentEntity)
  {
    Wrapped(Url(baseUrl, "reqShared" + tag + "CommentsList"), Some(JObj([("shared_id", JNum(id))])), One(SharedCommentEntity))
  }

  /** Declared for one SharedTag, not a list. */
  function GetSharedTags(baseUrl: string, id: Int32, tag: string): (ep: Endpoint)
    ensures ep.verb == Post && ep.wrapped && ep.url == Url(baseUrl, "reqShared" + tag + "Tags")
    ensures ep.body.Some? && Puts(ep.body.value, "shared_id", JNum(id)) && |ep.body.value.members| == 1
    ensures ep.result == One(SharedTagEntity)
  {
    Wrapped(Url(baseUrl, "reqShared" + tag + "Tags"), Some(JObj([("shared_id", JNum(id))])), One(SharedTagEntity))
  }

  function AddCommentToShared(baseUrl: string, tag: string, sessionId: string, email: string, sharedId: Int32, comment: string): (ep: Endpoint)
    ensures ep.verb == Post && ep.wrapped && ep.url == Url(baseUrl, "reqInsertShared" + tag + "Comment")
    ensures ep.body.Some? && SharedCollectionsAPI.SendsSession(ep.body.value, sessionId, email, sharedId)
    ensures ep.body.Some? && Puts(ep.body.value, "comment", JStr(comment)) && |ep.body.value.members| == 4
    ensures ep.result == Text
  {
    Wrapped(Url(baseUrl, "reqInsertShared" + tag + "Comment"), Some(JObj([("session_id", JStr(sessionId)), ("login_id", JStr(email)), ("shared_id", JNum(sharedId)), ("comment", JStr(comment))])), Text)
  }

  function SearchByTagShared(baseUrl: string, tag: string, requestBody: GetSharedRequestBody): (ep: Endpoint)
    ensures ep.verb == Post && ep.wrapped && ep.url == Url(baseUrl, "reqTagSearchShared" + tag)
    ensures ep.body == Some(GetSharedRequestBodySchema.Encode(requestBody))
    ensures ep.result == ListOf(BaseSharedEntity)
  {
    Wrapped(Url(baseUrl, "reqTagSearchShared" + tag), Some(GetSharedRequestBodySchema.Encode(requestBody)), ListOf(BaseSharedEntity))
  }

  function RemoveSharedComment(baseUrl: string, tag: string, sessionId: string, email: string, sharedId: Int32, commentId: Int32): (ep: Endpoint)
    ensures ep.verb == Post && ep.wrapped && ep.url == Url(baseUrl, "reqDeleteShared" + tag + "Comment")
    ensures ep.body.Some? && SharedCollectionsAPI.SendsSession(ep.body.value, sessionId, email, sharedId)
    ensures ep.body.Some? && Puts(ep.body.value, "comment_id", JNum(commentId)) && |ep.body.value.members| == 4
    ensures ep.result == Text
  {
    Wrapped(Url(baseUrl, "reqDeleteShared" + tag + "Comment"), Some(JObj([("session_id", JStr(sessionId)), ("login_id", JStr(email)), ("shared_id", JNum(sharedId)), ("comment_id", JNum(commentId))])), Text)
  }

  /**
   * The request each public method makes.  The version check is the only
   * GET; it and the file download are the calls not wrapped; the login goes
   * to its fixed URL; everything else is a POST under the base URL.
   */
  function EndpointFor(baseUrl: string, op: Op): (ep: Endpoint)
    ensures ep.wrapped <==> !(op.MinSketchwareVersion? || op.SharedViewFile? || op.SharedViewFileBody?)
    ensures ep.verb == Get <==> op.MinSketchwareVersion?
    ensures op.AuthorizeUser? ==> ep.url == AuthorizeUrl
    ensures !op.AuthorizeUser? && !op.MinSketchwareVersion? ==> UnderBase(ep.url, baseUrl)
  {
    match op
    case MinSketchwareVersion => Endpoint(Get, baseUrl + "/min_sketchware_version.txt", None, Number, false)
    case RecentShared(k, n, i) => GetShared(baseUrl, Plural(k), "Recent", Paging(n, i))
    case MostLiked(k, n, i) =>
      (match k
       case View => GetShared(baseUrl, "Views", "LikeCnt", Paging(n, i))
       case MoreBlock => GetShared(baseUrl, "MoreBlocks", "LikeCnt", Paging(n, i))
       case Block => GetShared(baseUrl, "Blocks", "LikeCnt", Paging(n, i)))
    case MostLikedBody(k, b) =>
      (match k
       case View => GetShared(baseUrl, "Views", "LikeCnt", b)
       case MoreBlock => GetShared(baseUrl, "MoreBlocks", "LikeCnt", b)
       case Block => GetShared(baseUrl, "MoreBlocks", "LikeCnt", b))
    case MostDownloaded(k, n, i) => GetMostDownloadedShared(baseUrl, Plural(k), Paging(n, i))
    case MostDownloadedBody(k, b) => GetMostDownloadedShared(baseUrl, Plural(k), b)
    case SharedViewFile(id, name) => GetSharedFileCommon(baseUrl, "View", GetSharedFileRequestBody(id, name))
    case SharedViewFileBody(b) => GetSharedFileCommon(baseUrl, "View", b)
    case Details(k, id) => GetSharedDetails(baseUrl, id, Singular(k))
    case Comments(k, id) => GetSharedComments(baseUrl, id, Singular(k))
    case Tags(k, id) => GetSharedTags(baseUrl, id, Singular(k))
    case Project(id) => Wrapped(Url(baseUrl, "reqGetExportData"), Some(JObj([("url_id", JNum(id))])), ListOf(SharedProjectEntity))
    case ProjectExportedFile(name, user, url) =>
      Wrapped(Url(baseUrl, "getExportProjectFile"),
              Some(JObj([("file_name", JStr(name)), ("user_id", JNum(user)), ("url_id", JNum(url))])), Bytes)
    case AddComment(k, s, e, id, c) => AddCommentToShared(baseUrl, Singular(k), s, e, id, c)
    case SearchByTag(k, n, i, t) => SearchByTagShared(baseUrl, Plural(k), GetSharedRequestBody(n, i, Some(t)))
    case AllTags => Wrapped(Url(baseUrl, "reqAllTags"), Some(JObj([])), ListOf(SharedTagEntity))
    case RemoveComment(k, s, e, id, c) => RemoveSharedComment(baseUrl, Singular(k), s, e, id, c)
    case AuthorizeUser(e, d, t, g) => Wrapped(AuthorizeUrl, Some(UserAPI.AuthorizeBody(e, d, t, g)), One(AuthorizedModelEntity))
  }

  // ---------------------------------------------------------------------------
  // Where the client and the façades agree, and where they do not

  /** The façade method that a client method repeats, when there is one in SharedCollectionsAPI. */
  function CollectionsCounterpart(op: Op): Option<SharedCollectionsAPI.Op> {
    match op
    case RecentShared(k, n, i) => Some(SharedCollectionsAPI.RecentShared(k, n, i))
    case MostLiked(k, n, i) => Some(SharedCollectionsAPI.MostLiked(k, n, i))
    case MostLikedBody(k, b) => Some(SharedCollectionsAPI.MostLikedBody(k, b))
    case MostDownloaded(k, n, i) => Some(SharedCollectionsAPI.MostDownloaded(k, n, i))
    case MostDownloadedBody(k, b) => Some(SharedCollectionsAPI.MostDownloadedBody(k, b))
    case SharedViewFile(id, name) => Some(SharedCollectionsAPI.SharedFile(View, id, name))
    case SharedViewFileBody(b) => Some(SharedCollectionsAPI.SharedFileBody(View, b))
    case Details(k, id) => Some(SharedCollectionsAPI.Details(k, id))
    case Comments(k, id) => Some(SharedCollectionsAPI.Comments(k, id))
    case Tags(k, id) => Some(SharedCollectionsAPI.Tags(k, id))
    case AddComment(k, s, e, id, c) => Some(SharedCollectionsAPI.AddComment(k, s, e, id, c))
    case SearchByTag(k, n, i, t) => Some(SharedCollectionsAPI.SearchByTag(k, n, i, t))
    case AllTags => Some(SharedCollectionsAPI.AllTags)
    case RemoveComment(k, s, e, id, c) => Some(SharedCollectionsAPI.RemoveComment(k, s, e, id, c))
    case _ => None
  }

  /**
   * Apart from the most-downloaded listings, the file download, comments and
   * tags, every shared-collection method of the client makes exactly the
   * request its façade counterpart makes, the Blocks quirk included.
   */
  lemma AgreesWithCollections(baseUrl: string, op: Op)
    requires CollectionsCounterpart(op).Some?
    requires !(op.MostDownloaded? || op.MostDownloadedBody? || op.SharedViewFile? || op.SharedViewFileBody? || op.Comments? || op.Tags?)
    ensures EndpointFor(baseUrl, op) == SharedCollectionsAPI.EndpointFor(baseUrl, CollectionsCounterpart(op).value)
  {
    if op.AddComment? || op.RemoveComment? {
      CommentActionsAgree(baseUrl, op);
    } else if op.RecentShared? || op.MostLiked? || op.MostLikedBody? {
      ListingsAgree(baseUrl, op);
    } else {
      LookupsAgree(baseUrl, op);
    }
  }

  lemma ListingsAgree(baseUrl: string, op: Op)
    requires op.RecentShared? || op.MostLiked? || op.MostLikedBody?
    ensures CollectionsCounterpart(op).Some?
    ensures EndpointFor(baseUrl, op) == SharedCollectionsAPI.EndpointFor(baseUrl, CollectionsCounterpart(op).value)
  {
  }

  lemma LookupsAgree(baseUrl: string, op: Op)
    requires op.Details? || op.SearchByTag? || op.AllTags?
    ensures CollectionsCounterpart(op).Some?
    ensures EndpointFor(baseUrl, op) == SharedCollectionsAPI.EndpointFor(baseUrl, CollectionsCounterpart(op).value)
  {
  }

  lemma CommentActionsAgree(baseUrl: string, op: Op)
    requires op.AddComment? || op.RemoveComment?
    ensures CollectionsCounterpart(op).Some?
    ensures EndpointFor(baseUrl, op) == SharedCollectionsAPI.EndpointFor(baseUrl, CollectionsCounterpart(op).value)
  {
    match op
    case AddComment(k, s, e, id, c) => AddCommentAgrees(baseUrl, k, s, e, id, c);
    case RemoveComment(k, s, e, id, c) => RemoveCommentAgrees(baseUrl, k, s, e, id, c);
  }

  /** Adding a comment through the client is the façade's request, field for field. */
  lemma AddCommentAgrees(baseUrl: string, k: Kind, s: string, e: string, id: Int32, c: string)
    ensures EndpointFor(baseUrl, AddComment(k, s, e, id, c)) ==
              SharedCollectionsAPI.EndpointFor(baseUrl, SharedCollectionsAPI.AddComment(k, s, e, id, c))
  {
    assert EndpointFor(baseUrl, AddComment(k, s, e, id, c)) == AddCommentToShared(baseUrl, Singular(k), s, e, id, c);
  }

  /** So is deleting one. */
  lemma RemoveCommentAgrees(baseUrl: string, k: Kind, s: string, e: string, id: Int32, c: Int32)
    ensures EndpointFor(baseUrl, RemoveComment(k, s, e, id, c)) ==
              SharedCollectionsAPI.EndpointFor(baseUrl, SharedCollectionsAPI.RemoveComment(k, s, e, id, c))
  {
    assert EndpointFor(baseUrl, RemoveComment(k, s, e, id, c)) == RemoveSharedComment(baseUrl, Singular(k), s, e, id, c);
  }

  /**
   * The client's most-downloaded listings use the token "downCnt": their URL
   * differs from the façade's "DownCnt" one, while body and result agree.
   */
  lemma LowercaseDownCnt(baseUrl: string, k: Kind, n: Int32, i: Int32)
    ensures EndpointFor(baseUrl, MostDownloaded(k, n, i)).url == Url(baseUrl, ListingPath("downCnt", Plural(k)))
    ensures EndpointFor(baseUrl, MostDownloaded(k, n, i)).url != SharedCollectionsAPI.EndpointFor(baseUrl, SharedCollectionsAPI.MostDownloaded(k, n, i)).url
    ensures EndpointFor(baseUrl, MostDownloaded(k, n, i)) ==
              SharedCollectionsAPI.EndpointFor(baseUrl, SharedCollectionsAPI.MostDownloaded(k, n, i)).(url := Url(baseUrl, ListingPath("downCnt", Plural(k))))
  {
    var lower := ListingPath("downCnt", Plural(k));
    var upper := ListingPath("DownCnt", Plural(k));
    assert lower[3] != upper[3];
    UrlInjective(baseUrl, lower, upper);
  }

  /** Comments and tags ask what the façade asks, but decode a single record rather than a list. */
  lemma SingleCommentsAndTags(baseUrl: string, k: Kind, id: Int32)
    ensures EndpointFor(baseUrl, Comments(k, id)) ==
              SharedCollectionsAPI.EndpointFor(baseUrl, SharedCollectionsAPI.Comments(k, id)).(result := One(SharedCommentEntity))
    ensures EndpointFor(baseUrl, Tags(k, id)) ==
              SharedCollectionsAPI.EndpointFor(baseUrl, SharedCollectionsAPI.Tags(k, id)).(result := One(SharedTagEntity))
  {
  }

  /**
   * So a reply that is a JSON array, as a listing of comments or tags is,
   * comes back as an error Response, whatever it holds.
   */
  lemma ArrayReplyFails(transport: Request -> Outcome<Payload>, baseUrl: string, op: Op, items: seq<Json>)
    requires op.Comments? || op.Tags?
    requires transport(RequestOf(EndpointFor(baseUrl, op))) == Ok(JsonPayload(JArr(items)))
    ensures Invoke(transport, EndpointFor(baseUrl, op)).Captured?
    ensures Invoke(transport, EndpointFor(baseUrl, op)).exchange.response == Response(None, Some(UnexpectedBody))
  {
    var ep := EndpointFor(baseUrl, op);
    OneRefusesArray(ep.result.entity, items);
    var r := Invoke(transport, ep).exchange.response;
    InvokeOutcome(transport, ep);
    CaptureBijective(Call(transport, ep.result)(RequestOf(ep)), r);
  }

  /** The view-file download asks what the façade asks, but is not wrapped. */
  lemma UnwrappedViewFile(baseUrl: string, id: Int32, name: string)
    ensures EndpointFor(baseUrl, SharedViewFile(id, name)) ==
              SharedCollectionsAPI.EndpointFor(baseUrl, SharedCollectionsAPI.SharedFile(View, id, name)).(wrapped := false)
    ensures EndpointFor(baseUrl, SharedViewFile(id, name)) == EndpointFor(baseUrl, SharedViewFileBody(GetSharedFileRequestBody(id, name)))
  {
  }

  /** A transport failure of the file download or the version check reaches the caller as the exception itself. */
  lemma UnwrappedFailureEscapes(transport: Request -> Outcome<Payload>, baseUrl: string, op: Op)
    requires op.MinSketchwareVersion? || op.SharedViewFile? || op.SharedViewFileBody?
    requires transport(RequestOf(EndpointFor(baseUrl, op))).Exn?
    ensures Invoke(transport, EndpointFor(baseUrl, op)) ==
              Direct([RequestOf(EndpointFor(baseUrl, op))], Exn(transport(RequestOf(EndpointFor(baseUrl, op))).cause))
  {
    DirectPropagatesFailure(transport, EndpointFor(baseUrl, op));
  }

  /** The version check is a GET of `min_sketchware_version.txt` under the base URL, read as an Int. */
  lemma MinVersion(baseUrl: string)
    ensures EndpointFor(baseUrl, MinSketchwareVersion) ==
              Endpoint(Get, baseUrl + "/min_sketchware_version.txt", None, Number, false)
  {
  }

  /** Two URLs with the same path are equal exactly when their bases are. */
  lemma UrlBaseInjective(base: string, base': string, path: string)
    ensures Url(base, path) == Url(base', path) <==> base == base'
  {
    if Url(base, path) == Url(base', path) {
      UrlParts(base, path);
      UrlParts(base', path);
    }
  }

  /** The login is a wrapped POST of the login body to the fixed URL, whatever the base URL. */
  lemma LoginEndpoint(baseUrl: string, email: string, deviceId: string, token: string, gcmId: string)
    ensures EndpointFor(baseUrl, AuthorizeUser(email, deviceId, token, gcmId)) ==
              Endpoint(Post, AuthorizeUrl, Some(UserAPI.AuthorizeBody(email, deviceId, token, gcmId)), One(AuthorizedModelEntity), true)
  {
  }

  /** UserAPI's login is the same POST under the base URL given. */
  lemma UserLoginEndpoint(baseUrl: string, email: string, deviceId: string, token: string, gcmId: string)
    ensures UserAPI.EndpointFor(baseUrl, UserAPI.AuthorizeUser(email, deviceId, token, gcmId)) ==
              Endpoint(Post, Url(baseUrl, "registerSnsUser"), Some(UserAPI.AuthorizeBody(email, deviceId, token, gcmId)), One(AuthorizedModelEntity), true)
  {
  }

  /** The fixed login URL is the login path under "https://sketchware.io" and under no other base URL. */
  lemma FixedUrlBase(baseUrl: string)
    ensures Url(baseUrl, "registerSnsUser") == AuthorizeUrl <==> baseUrl == "https://sketchware.io"
  {
    assert AuthorizeUrl == Url("https://sketchware.io", "registerSnsUser");
    UrlBaseInjective(baseUrl, "https://sketchware.io", "registerSnsUser");
  }

  /**
   * The login ignores the base URL: it matches the UserAPI login exactly
   * when the base URL is "https://sketchware.io", which a default client's is not.
   */
  lemma FixedAuthorizeUrl(baseUrl: string, baseUrl': string, email: string, deviceId: string, token: string, gcmId: string)
    ensures EndpointFor(baseUrl, AuthorizeUser(email, deviceId, token, gcmId)) ==
              EndpointFor(baseUrl', AuthorizeUser(email, deviceId, token, gcmId))
    ensures EndpointFor(baseUrl, AuthorizeUser(email, deviceId, token, gcmId)) ==
              UserAPI.EndpointFor(baseUrl, UserAPI.AuthorizeUser(email, deviceId, token, gcmId))
            <==> baseUrl == "https://sketchware.io"
    ensures EndpointFor(DefaultBaseUrl, AuthorizeUser(email, deviceId, token, gcmId)) !=
              UserAPI.EndpointFor(DefaultBaseUrl, UserAPI.AuthorizeUser(email, deviceId, token, gcmId))
  {
    LoginEndpoint(baseUrl, email, deviceId, token, gcmId);
    LoginEndpoint(baseUrl', email, deviceId, token, gcmId);
    LoginEndpoint(DefaultBaseUrl, email, deviceId, token, gcmId);
    UserLoginEndpoint(baseUrl, email, deviceId, token, gcmId);
    UserLoginEndpoint(DefaultBaseUrl, email, deviceId, token, gcmId);
    FixedUrlBase(baseUrl);
    FixedUrlBase(DefaultBaseUrl);
  }

  /** The project calls make exactly the requests of ProjectsAPI. */
  lemma AgreesWithProjects(baseUrl: string, id: Int32, name: string, user: Int32, url: Int32)
    ensures EndpointFor(baseUrl, Project(id)) == ProjectsAPI.EndpointFor(baseUrl, ProjectsAPI.ExportedProject(id))
    ensures EndpointFor(baseUrl, ProjectExportedFile(name, user, url)) ==
              ProjectsAPI.EndpointFor(baseUrl, ProjectsAPI.ProjectExportedFile(name, user, url))
  {
  }

  /** A client built without arguments asks for any page of recent views at "http://sketchware.io/reqRecentSharedViews.do". */
  lemma DefaultClientRecentViews(n: Int32, i: Int32)
    ensures EndpointFor(DefaultBaseUrl, RecentShared(View, n, i)).url == "http://sketchware.io/reqRecentSharedViews.do"
  {
    RecentListingUrl(DefaultBaseUrl, View, n, i);
    SharedCollectionsAPI.RecentViewsUrl(DefaultBaseUrl);
  }

  lemma RecentListingUrl(baseUrl: string, k: Kind, n: Int32, i: Int32)
    ensures EndpointFor(baseUrl, RecentShared(k, n, i)).url == Url(baseUrl, ListingPath("Recent", Plural(k)))
  {
  }
}
