/**
 * The chat agent object: it owns the `history` table of one conversation,
 * creates it when constructed, runs chat turns on it and answers the HTTP
 * requests forwarded to it.
 */
module Agent {
  import opened Wrappers
  import opened History
  import opened Turn

  /**
   * The request body as `request.json()` leaves it: a parse error, an array
   * (of text values), or any other JSON value, given by its `String(...)` text.
   */
  datatype Payload =
    | Unparseable(description: string)
    | JsonArray(items: seq<string>)
    | JsonOther(text: string)

  datatype AgentRequest = AgentRequest(httpMethod: string, body: Payload)

  /** A JSON response body: the reply as a JSON string, or the object `{error}`. */
  datatype JsonBody = ReplyString(reply: string) | ErrorObject(error: string)

  datatype ResponseBody = PlainText(text: string) | Json(json: JsonBody) | HtmlPage | NoBody

  /**
   * An HTTP response: status, the Content-Type header it carries (the one the
   * code sets, or the runtime's default for a text body), and the body.
   */
  datatype Response = Response(status: int, contentType: Option<string>, body: ResponseBody)

  const JsonType: string := "application/json"

  /** The Content-Type the runtime gives a response built from a string body with no header of its own. */
  const PlainTextType: string := "text/plain;charset=UTF-8"

  function MethodNotAllowed(): Response
  {
    Response(405, Some(PlainTextType), PlainText("Method not allowed"))
  }

  function ServerError(description: string): Response
  {
    Response(500, Some(JsonType), Json(ErrorObject(description)))
  }

  function ReplyResponse(reply: string): Response
  {
    Response(200, Some(JsonType), Json(ReplyString(reply)))
  }

  /**
   * The message taken from a parsed body: the first element of an array,
   * absent when the array is empty, or the text of any other value.
   */
  function MessageOf(body: Payload): (m: Option<string>)
    requires !body.Unparseable?
    ensures body.JsonArray? && |body.items| > 0 ==> m == Some(body.items[0])
    ensures body.JsonArray? && |body.items| == 0 ==> m == None
    ensures body.JsonOther? ==> m == Some(body.text)
  {
    match body
    case JsonArray(items) => if |items| > 0 then Some(items[0]) else None
    case JsonOther(text) => Some(text)
  }

  /** ChatAgent.Fetch on `log`, as a value: its response and the rows afterwards. */
  function FetchEffect(log: seq<Row>, request: AgentRequest, infer: AiRequest -> Outcome,
                       userTime: int, replyTime: int, fault: Fault): (e: Effect<Response>)
    ensures request.httpMethod != "POST" ==> e == Effect(MethodNotAllowed(), log)
    ensures request.httpMethod == "POST" && request.body.Unparseable? ==>
      e == Effect(ServerError(request.body.description), log)
    ensures e.result.status in {200, 405, 500}
    ensures e.result.status == 200 <==> request.httpMethod == "POST" && !request.body.Unparseable? && fault.NoFault?
    ensures e.result.status == 200 ==>
      && e.result.body.Json? && e.result.body.json.ReplyString?
      && e.result == ReplyResponse(e.result.body.json.reply)
      && e.log == log + TurnRows(MessageOf(request.body), e.result.body.json.reply, userTime, replyTime)
    ensures e.result.status == 500 ==> e.result.body.Json? && e.result.body.json.ErrorObject?
    ensures request.httpMethod == "POST" && !request.body.Unparseable? && fault.NoFault? ==>
      e == Effect(ReplyResponse(Reply(infer(RequestFor(log, MessageOf(request.body), userTime)))),
                  ChatEffect(log, MessageOf(request.body), infer, userTime, replyTime, fault).log)
    ensures request.httpMethod == "POST" && !request.body.Unparseable? && !fault.NoFault? ==>
      && e.result == ServerError(fault.description)
      && e.log == ChatEffect(log, MessageOf(request.body), infer, userTime, replyTime, fault).log
    ensures e.result.status != 200 ==> e.log == log || e.log == log + [Row(User, MessageOf(request.body), userTime)]
  {
    if request.httpMethod != "POST" then
      Effect(MethodNotAllowed(), log)
    else if request.body.Unparseable? then
      Effect(ServerError(request.body.description), log)
    else
      var turn := ChatEffect(log, MessageOf(request.body), infer, userTime, replyTime, fault);
      match turn.result
      case Success(reply) => Effect(ReplyResponse(reply), turn.log)
      case Failure(description) => Effect(ServerError(description), turn.log)
  }

  /** The agent bound to one conversation, holding that conversation's table. */
  class ChatAgent {
    var table: Table

    /** Once constructed, the agent's table exists. */
    ghost predicate Valid()
      reads this
    {
      table.Present?
    }

    /** Binds the agent to the conversation's storage, which may already hold a table, and creates the table if needed. */
    constructor (stored: Table)
      ensures Valid()
      ensures table == CreateIfNotExists(stored)
      ensures stored.Present? ==> table == stored
    {
      table := stored;
      new;
      EnsureTable();
    }

    /** Creates the table if it does not exist; an existing table and its rows stay as they are. */
    method EnsureTable()
      modifies this
      ensures Valid()
      ensures table == CreateIfNotExists(old(table))
      ensures old(table).Present? ==> table == old(table)
    {
      table := CreateIfNotExists(table);
    }

    /** INSERT INTO history: appends one row. */
    method Insert(role: Role, content: Option<string>, timestamp: int)
      requires Valid()
      modifies this
      ensures Valid()
      ensures table.rows == old(table.rows) + [Row(role, content, timestamp)]
    {
      table := Present(table.rows + [Row(role, content, timestamp)]);
    }

    /**
     * One chat turn. A thrown inference error becomes the reply text; a
     * storage error ends the turn and is returned as a Failure, leaving
     * whatever rows were already stored.
     */
    method Chat(message: Option<string>, infer: AiRequest -> Outcome, userTime: int, replyTime: int, fault: Fault)
      returns (result: Result<string>)
      requires Valid()
      modifies this
      ensures Valid()
      ensures Effect(result, table.rows) == ChatEffect(old(table.rows), message, infer, userTime, replyTime, fault)
    {
      if fault.UserInsertFails? {
        return Failure(fault.description);
      }
      Insert(User, message, userTime);
      if fault.HistoryReadFails? {
        return Failure(fault.description);
      }
      var history := GetHistory(table.rows);
      var context := ContextWindow(history);
      var reply := DefaultReply;
      match infer(AiRequest(ModelName, context)) {
        case Returned(res) =>
          reply := SelectReply(res);
        case Threw(description) =>
          reply := "Error: " + description;
      }
      if fault.ReplyInsertFails? {
        return Failure(fault.description);
      }
      Insert(Assistant, Some(reply), replyTime);
      result := Success(reply);
    }

    /** The agent's HTTP entry point: only POST is served, and any thrown error becomes a 500. */
    method Fetch(request: AgentRequest, infer: AiRequest -> Outcome, userTime: int, replyTime: int, fault: Fault)
      returns (response: Response)
      requires Valid()
      modifies this
      ensures Valid()
      ensures Effect(response, table.rows) == FetchEffect(old(table.rows), request, infer, userTime, replyTime, fault)
    {
      if request.httpMethod != "POST" {
        return MethodNotAllowed();
      }
      if request.body.Unparseable? {
        return ServerError(request.body.description);
      }
      var message := MessageOf(request.body);
      var result := Chat(message, infer, userTime, replyTime, fault);
      match result {
        case Success(reply) =>
          response := ReplyResponse(reply);
        case Failure(description) =>
          response := ServerError(description);
      }
    }
  }
}
