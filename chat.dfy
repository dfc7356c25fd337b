/**
 * The AI prompt endpoint of app.py (`POST /api/v1/ai/prompt`): the check on the
 * query, the call into the AI service, and the mapping from the service's result
 * dict to an HTTP status.
 */
module Chat {
  import opened Wrappers
  import opened AiService

  /** The `query` key of the body: absent (or the body empty), a string, or another value. */
  datatype QueryField = QueryAbsent | QueryString(s: string) | QueryOther

  datatype ChatRequest = NoChatBody | ChatBody(query: QueryField)

  /** What the handler gets back from the service: a dict, some other value, or an exception. */
  datatype ServiceReply = ReplyNotDict | ReplyRaised | ReplyDict(result: AiResult)

  /** The HTTP status and, on 200, the `data` payload sent back. */
  datatype ChatResponse = ChatResponse(status: int, data: Option<AnswerData>)

  /** `data` is truthy, `data.get('query')` is a string, and that string is not empty. */
  predicate ValidQuery(req: ChatRequest) {
    req.ChatBody? && req.query.QueryString? && req.query.s != ""
  }

  /**
   * The handling of the service's result: an `error` key answers 400 only when the
   * payload is an object and `status` is "refused", and 500 otherwise; a payload that is
   * a string makes `error_payload.get` raise, which the handler's last `except` turns
   * into 500. A `data` key answers 200 with that data. Anything else is 500.
   */
  function ReplyToResponse(reply: ServiceReply): (r: ChatResponse)
    ensures r.status == 200 || r.status == 400 || r.status == 500
    ensures r.status == 200 <==> reply.ReplyDict? && reply.result.error.None? && reply.result.data.Some?
    ensures r.status == 400 <==>
      && reply.ReplyDict? && reply.result.error.Some? && reply.result.error.value.ErrObject?
      && reply.result.status == Some("refused")
    ensures r.data.Some? <==> r.status == 200
    ensures r.status == 200 ==> r.data == reply.result.data
  {
    match reply
    case ReplyNotDict => ChatResponse(500, None)
    case ReplyRaised => ChatResponse(500, None)
    case ReplyDict(result) =>
      if result.error.Some? then
        match result.error.value
        case ErrText(_) => ChatResponse(500, None)
        case ErrObject(_) =>
          var status := match result.status case Some(s) => s case None => "failed";
          ChatResponse(if status == "refused" then 400 else 500, None)
      else if result.data.Some? then ChatResponse(200, result.data)
      else ChatResponse(500, None)
  }

  /** `handle_ai_chat()` with the catalog, the AI configuration, the model's outcome and
      the refusal's quoted title given. */
  function HandleAiChat(req: ChatRequest, catalog: CatalogValue, cfg: AiConfig, agent: AgentOutcome, mentioned: string): ChatResponse {
    if !ValidQuery(req) then ChatResponse(400, None)
    else
      var titles := GetAvailableBookTitles(catalog);
      ReplyToResponse(ReplyDict(GetAiResponse(cfg, req.query.s, titles, agent, mentioned)))
  }

  /**
   * A missing, non-string or empty query is the only 400: every error the service
   * really returns is a string, so refusals and failures alike end in 500. The answer
   * is 200 exactly when the service is configured, the query names a catalog title and
   * the model answers, and then it carries that answer and that title.
   */
  lemma HandleAiChatStatus(req: ChatRequest, catalog: CatalogValue, cfg: AiConfig, agent: AgentOutcome, mentioned: string)
    ensures var r := HandleAiChat(req, catalog, cfg, agent, mentioned);
      (r.status == 400 <==> !ValidQuery(req))
    ensures var r := HandleAiChat(req, catalog, cfg, agent, mentioned);
      ValidQuery(req) ==> (r.status == 200 || r.status == 500)
    ensures var r := HandleAiChat(req, catalog, cfg, agent, mentioned);
      var titles := GetAvailableBookTitles(catalog);
      r.status == 200 <==>
        && ValidQuery(req) && Ready(cfg) && agent.AgentAnswered?
        && RequestedTitle(req.query.s, titles).Some?
    ensures var r := HandleAiChat(req, catalog, cfg, agent, mentioned);
      var titles := GetAvailableBookTitles(catalog);
      r.status == 200 ==>
        && r.data == Some(AnswerData(agent.answer, RequestedTitle(req.query.s, titles).value))
        && RequestedTitle(req.query.s, titles).value in titles
  {
    if ValidQuery(req) && Ready(cfg) {
      var titles := GetAvailableBookTitles(catalog);
      if RequestedTitle(req.query.s, titles).Some? {
        TitleReported(cfg, req.query.s, titles, agent, mentioned);
      }
    }
  }
}
