/**
 * UserAPI: the account endpoints, namely the SNS login and the user's
 * exported apks and projects.  Every call is a POST under the base URL
 * through `postRequest`.
 */
module UserAPI {
  import opened Wrappers
  import opened Ints
  import opened Json
  import opened Responses
  import opened KtorUtils
  import opened Endpoints
  import SnsSerializer

  datatype Op =
    | UserExportedApks(sessionId: string, email: string)
    | UserExportedProjects(sessionId: string, email: string)
    | RemoveExportedApk(sessionId: string, email: string, urlId: Int32)
    | RemoveExportedProject(sessionId: string, email: string, urlId: Int32)
    | AuthorizeUser(email: string, deviceId: string, accessToken: string, gcmId: string)

  /** `mapOf("session_id" to sessionId, "login_id" to email)`. */
  function SessionBody(sessionId: string, email: string): seq<(string, Json)> {
    [("session_id", JStr(sessionId)), ("login_id", JStr(email))]
  }

  /**
   * The body of the SNS login: it flags an SNS user the way SnsSerializer
   * writes true, names google as the SNS, and carries the e-mail as the login
   * and the device, token and GCM ids under their own names.
   */
  function AuthorizeBody(email: string, deviceId: string, accessToken: string, gcmId: string): (j: Json)
    ensures Puts(j, "is_sns_user", JStr(SnsSerializer.Serialize(true)))
    ensures Puts(j, "login_id", JStr(email)) && Puts(j, "sns_kind", JStr("google"))
    ensures Puts(j, "device_id", JStr(deviceId)) && Puts(j, "access_token", JStr(accessToken))
    ensures Puts(j, "gcm_id", JStr(gcmId)) && |j.members| == 6
  {
    JObj([("is_sns_user", JStr("Y")), ("login_id", JStr(email)), ("sns_kind", JStr("google")),
              ("device_id", JStr(deviceId)), ("access_token", JStr(accessToken)), ("gcm_id", JStr(gcmId))])
  }

  function EndpointFor(baseUrl: string, op: Op): (ep: Endpoint)
    ensures ep.verb == Post && ep.wrapped
    ensures UnderBase(ep.url, baseUrl)
  {
    match op
    case UserExportedApks(s, e) =>
      Endpoint(Post, Url(baseUrl, "reqListExportApk"), Some(JObj(SessionBody(s, e))), ListOf(ExportedApkEntity), true)
    case UserExportedProjects(s, e) =>
      Endpoint(Post, Url(baseUrl, "reqListExportData"), Some(JObj(SessionBody(s, e))), ListOf(ExportedApkEntity), true)
    case RemoveExportedApk(s, e, id) =>
      Endpoint(Post, Url(baseUrl, "reqDeleteApkUrl"), Some(JObj(SessionBody(s, e) + [("url_id", JNum(id))])), Text, true)
    case RemoveExportedProject(s, e, id) =>
      Endpoint(Post, Url(baseUrl, "reqDeleteDataUrl"), Some(JObj(SessionBody(s, e) + [("url_id", JNum(id))])), Text, true)
    case AuthorizeUser(e, d, t, g) =>
      Endpoint(Post, Url(baseUrl, "registerSnsUser"), Some(AuthorizeBody(e, d, t, g)), One(AuthorizedModelEntity), true)
  }

  /** The login posts to `registerSnsUser.do` under the base URL and decodes an AuthorizedModel. */
  lemma Authorize(baseUrl: string, email: string, deviceId: string, accessToken: string, gcmId: string)
    ensures EndpointFor(baseUrl, AuthorizeUser(email, deviceId, accessToken, gcmId)) ==
              Endpoint(Post, baseUrl + "/registerSnsUser.do", Some(AuthorizeBody(email, deviceId, accessToken, gcmId)),
                       One(AuthorizedModelEntity), true)
  {
  }

  /**
   * The server reads the login body as flagging an SNS user the way
   * SnsSerializer writes true, naming google as the SNS and giving the e-mail
   * as the login; no key of the body is repeated.
   */
  lemma AuthorizeBodyFields(email: string, deviceId: string, accessToken: string, gcmId: string)
    ensures Lookup(AuthorizeBody(email, deviceId, accessToken, gcmId).members, "is_sns_user") == Some(JStr(SnsSerializer.Serialize(true)))
    ensures Lookup(AuthorizeBody(email, deviceId, accessToken, gcmId).members, "login_id") == Some(JStr(email))
    ensures Lookup(AuthorizeBody(email, deviceId, accessToken, gcmId).members, "sns_kind") == Some(JStr("google"))
  {
    var m := AuthorizeBody(email, deviceId, accessToken, gcmId).members;
    LookupAt(m, 0);
    LookupAt(m, 1);
    LookupAt(m, 2);
  }

  /**
   * Both listings send `{session_id, login_id}` and decode a list of
   * ExportedApk; the project listing too, although it lists projects.
   */
  lemma Listings(baseUrl: string, sid: string, email: string)
    ensures EndpointFor(baseUrl, UserExportedApks(sid, email)).url == Url(baseUrl, "reqListExportApk")
    ensures EndpointFor(baseUrl, UserExportedProjects(sid, email)).url == Url(baseUrl, "reqListExportData")
    ensures EndpointFor(baseUrl, UserExportedApks(sid, email)).body == Some(JObj([("session_id", JStr(sid)), ("login_id", JStr(email))]))
    ensures EndpointFor(baseUrl, UserExportedProjects(sid, email)).body == EndpointFor(baseUrl, UserExportedApks(sid, email)).body
    ensures EndpointFor(baseUrl, UserExportedProjects(sid, email)).result == ListOf(ExportedApkEntity)
    ensures EndpointFor(baseUrl, UserExportedApks(sid, email)).result == ListOf(ExportedApkEntity)
  {
  }

  /** Both removals send `{session_id, login_id, url_id}`, to `reqDeleteApkUrl.do` and `reqDeleteDataUrl.do`. */
  lemma Removals(baseUrl: string, sid: string, email: string, id: Int32)
    ensures EndpointFor(baseUrl, RemoveExportedApk(sid, email, id)).url == Url(baseUrl, "reqDeleteApkUrl")
    ensures EndpointFor(baseUrl, RemoveExportedProject(sid, email, id)).url == Url(baseUrl, "reqDeleteDataUrl")
    ensures EndpointFor(baseUrl, RemoveExportedApk(sid, email, id)).body ==
              Some(JObj([("session_id", JStr(sid)), ("login_id", JStr(email)), ("url_id", JNum(id))]))
    ensures EndpointFor(baseUrl, RemoveExportedProject(sid, email, id)).body == EndpointFor(baseUrl, RemoveExportedApk(sid, email, id)).body
  {
    assert SessionBody(sid, email) + [("url_id", JNum(id))] ==
           [("session_id", JStr(sid)), ("login_id", JStr(email)), ("url_id", JNum(id))];
  }

  /** Every call of this API comes back as a Response; a transport failure as its error. */
  lemma FailureIsCaptured(transport: Request -> Outcome<Payload>, baseUrl: string, op: Op)
    requires transport(RequestOf(EndpointFor(baseUrl, op))).Exn?
    ensures Invoke(transport, EndpointFor(baseUrl, op)).Captured?
    ensures Invoke(transport, EndpointFor(baseUrl, op)).exchange.response ==
              Response(None, Some(transport(RequestOf(EndpointFor(baseUrl, op))).cause))
  {
    WrappedCapturesFailure(transport, EndpointFor(baseUrl, op));
  }
}
