/**
 * ProjectsAPI: an exported project and the files it was exported as.  Both
 * calls are POSTs under the base URL through `postRequest`.
 */
module ProjectsAPI {
  import opened Wrappers
  import opened Ints
  import opened Json
  import opened Responses
  import opened KtorUtils
  import opened Endpoints

  datatype Op =
    | ExportedProject(id: Int32)
    | ProjectExportedFile(fileName: string, userId: Int32, urlId: Int32)

  function EndpointFor(baseUrl: string, op: Op): (ep: Endpoint)
    ensures ep.verb == Post && ep.wrapped
    ensures UnderBase(ep.url, baseUrl)
  {
    match op
    case ExportedProject(id) =>
      Endpoint(Post, Url(baseUrl, "reqGetExportData"), Some(JObj([("url_id", JNum(id))])), ListOf(SharedProjectEntity), true)
    case ProjectExportedFile(name, user, url) =>
      Endpoint(Post, Url(baseUrl, "getExportProjectFile"),
               Some(JObj([("file_name", JStr(name)), ("user_id", JNum(user)), ("url_id", JNum(url))])), Bytes, true)
  }

  /** The project is asked for by `{"url_id": id}` at `reqGetExportData.do` and decodes as a list of SharedProject. */
  lemma GetExportedProject(baseUrl: string, id: Int32)
    ensures EndpointFor(baseUrl, ExportedProject(id)) ==
              Endpoint(Post, baseUrl + "/reqGetExportData.do", Some(JObj([("url_id", JNum(id))])), ListOf(SharedProjectEntity), true)
  {
  }

  /** The file body names file_name, user_id and url_id, in that order, and the reply is taken as bytes. */
  lemma GetProjectExportedFile(baseUrl: string, name: string, user: Int32, url: Int32)
    ensures EndpointFor(baseUrl, ProjectExportedFile(name, user, url)).url == baseUrl + "/getExportProjectFile.do"
    ensures EndpointFor(baseUrl, ProjectExportedFile(name, user, url)).body.value.members ==
              [("file_name", JStr(name)), ("user_id", JNum(user)), ("url_id", JNum(url))]
    ensures EndpointFor(baseUrl, ProjectExportedFile(name, user, url)).result == Bytes
  {
  }

  /** Both calls come back as a Response; a transport failure as its error. */
  lemma FailureIsCaptured(transport: Request -> Outcome<Payload>, baseUrl: string, op: Op)
    requires transport(RequestOf(EndpointFor(baseUrl, op))).Exn?
    ensures Invoke(transport, EndpointFor(baseUrl, op)).Captured?
    ensures Invoke(transport, EndpointFor(baseUrl, op)).exchange.response ==
              Response(None, Some(transport(RequestOf(EndpointFor(baseUrl, op))).cause))
  {
    WrappedCapturesFailure(transport, EndpointFor(baseUrl, op));
  }
}
