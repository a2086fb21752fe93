/** The worker's front door: which handler a request's path and method select. */
module Router {
  import opened Wrappers
  import opened History
  import opened Turn
  import opened Agent

  /** The handlers: the HTML page, the favicon, the chat agent with the given instance name, or not found. */
  datatype Route = Page | Favicon | ChatApi(instance: string) | NotFound

  /** The instance every chat request is forwarded to. */
  const DefaultInstance: string := "default"

  /** The routing table. Every path and method select exactly one handler. */
  function RouteOf(pathname: string, httpMethod: string): (r: Route)
    ensures r.Page? <==> pathname == "/" || pathname == "/index.html"
    ensures r.Favicon? <==> pathname == "/favicon.ico"
    ensures r.ChatApi? <==> pathname == "/api/chat" && httpMethod == "POST"
    ensures r.ChatApi? ==> r.instance == DefaultInstance
    ensures r.NotFound? <==>
      pathname !in {"/", "/index.html", "/favicon.ico"} && !(pathname == "/api/chat" && httpMethod == "POST")
  {
    if pathname == "/" || pathname == "/index.html" then Page
    else if pathname == "/favicon.ico" then Favicon
    else if pathname == "/api/chat" && httpMethod == "POST" then ChatApi(DefaultInstance)
    else NotFound
  }

  /**
   * The response of the handlers the worker answers itself: the status tells
   * which handler answered, and only the page is served as HTML.
   */
  function StaticResponse(r: Route): (resp: Response)
    requires !r.ChatApi?
    ensures resp.status in {200, 204, 404}
    ensures resp.status == 200 <==> r.Page?
    ensures resp.status == 204 <==> r.Favicon?
    ensures resp.body == HtmlPage <==> r.Page?
    ensures resp.contentType == Some("text/html") <==> r.Page?
    ensures resp.contentType.None? <==> r.Favicon?
    ensures r.Favicon? ==> resp.body == NoBody
    ensures r.NotFound? ==> resp.body == PlainText("Not Found") && resp.contentType == Some(PlainTextType)
  {
    match r
    case Page => Response(200, Some("text/html"), HtmlPage)
    case Favicon => Response(204, None, NoBody)
    case NotFound => Response(404, Some(PlainTextType), PlainText("Not Found"))
  }

  /**
   * A request reaches the agent only as a POST, so the agent's 405 answer is
   * never seen through the worker, and a GET to the chat path is not found.
   */
  lemma ForwardedRequestsArePosts(log: seq<Row>, pathname: string, request: AgentRequest,
                                  infer: AiRequest -> Outcome, userTime: int, replyTime: int, fault: Fault)
    requires RouteOf(pathname, request.httpMethod).ChatApi?
    ensures FetchEffect(log, request, infer, userTime, replyTime, fault).result.status != 405
  {
  }

  /**
   * The worker's fetch: answers the page, the favicon and unknown routes
   * itself, without touching any conversation, and forwards POSTs to the
   * chat path to the agent `agent`, the instance named "default".
   */
  method WorkerFetch(agent: ChatAgent, pathname: string, request: AgentRequest,
                     infer: AiRequest -> Outcome, userTime: int, replyTime: int, fault: Fault)
    returns (response: Response)
    requires agent.Valid()
    modifies agent
    ensures agent.Valid()
    ensures !RouteOf(pathname, request.httpMethod).ChatApi? ==>
      response == StaticResponse(RouteOf(pathname, request.httpMethod)) && agent.table == old(agent.table)
    ensures RouteOf(pathname, request.httpMethod).ChatApi? ==>
      Effect(response, agent.table.rows) == FetchEffect(old(agent.table.rows), request, infer, userTime, replyTime, fault)
  {
    var route := RouteOf(pathname, request.httpMethod);
    if route.ChatApi? {
      response := agent.Fetch(request, infer, userTime, replyTime, fault);
    } else {
      response := StaticResponse(route);
    }
  }
}
