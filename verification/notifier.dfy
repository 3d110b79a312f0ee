/**
 * The outbound notifier (`api/telegram.js`): a task submission is validated in a fixed
 * order, rendered into a fixed message template and sent to the operator's chat.
 */
module Notifier {
  import opened Wrappers
  import opened Text
  import opened Decimal
  import opened Relay

  /** The JSON body of a submission; an empty string stands for a missing or falsy field. */
  datatype Submission = Submission(
    httpMethod: string, taskId: string, agentName: string, agentId: string, request: string)

  /** What the chat service's `sendMessage` endpoint came to. */
  datatype Upstream =
    | Delivered(messageId: int)   // { ok: true, result: { message_id } }
    | Rejected(details: string)   // { ok: false, ... }
    | Threw(message: string)      // fetch or JSON parsing threw

  datatype Body =
    | MethodNotAllowed                         // { error: 'Method not allowed' }
    | MissingFields                            // { error: 'Missing required fields' }
    | NoToken                                  // { error: 'Bot token not configured' }
    | SendFailed(details: string)              // { error: 'Failed to send Telegram message', details }
    | InternalError(details: string)           // { error: 'Internal server error', details }
    | Sent(messageId: int, taskId: string)     // { success: true, messageId, taskId }

  datatype Response = Response(status: int, body: Body)

  /** The one outbound call the handler may make. */
  datatype Call = Call(url: string, chatId: string, text: string, parseMode: string)

  datatype Outcome = Outcome(response: Response, call: Option<Call>)

  // ---------------------------------------------------------------------------
  // The message template

  const Header: string := "\U{1F4CB} NEW MISSION CONTROL TASK\n\n\U{1F916} Agent: "
  const TaskLine: string := "\n\U{1F194} Task ID: "
  const TimeLine: string := "\n\U{23F0} Time: "
  const RequestLine: string := "\n\n\U{1F4DD} REQUEST:\n\""
  const Footer: string := "\"\n\nReply to complete this task."

  /** Everything before the quoted request. */
  function Preamble(agentName: string, taskId: string, time: string): string {
    Header + agentName + TaskLine + taskId + TimeLine + time + RequestLine
  }

  /** The notification text; `time` is the locale rendering of the submission's timestamp. */
  function MessageText(agentName: string, taskId: string, time: string, request: string): (m: string)
    ensures StartsWith(m, Header) && EndsWith(m, Footer)
    ensures OccursAt(m, agentName, |Header|)
    ensures OccursAt(m, taskId, |Header| + |agentName| + |TaskLine|)
    ensures OccursAt(m, request, |Preamble(agentName, taskId, time)|)
    ensures |m| == |Preamble(agentName, taskId, time)| + |request| + |Footer|
  {
    var p := Preamble(agentName, taskId, time);
    var m := p + request + Footer;
    assert m[..|Header|] == Header;
    assert m[|m| - |Footer|..] == Footer;
    assert m[|Header|..|Header| + |agentName|] == agentName;
    var t := |Header| + |agentName| + |TaskLine|;
    assert m[t..t + |taskId|] == taskId;
    assert m[|p|..|p| + |request|] == request;
    m
  }

  /** Reads the quoted request back out of a notification whose other fields are known. */
  function QuotedRequest(m: string, agentName: string, taskId: string, time: string): (r: Option<string>)
    ensures r.Some? ==> MessageText(agentName, taskId, time, r.value) == m
  {
    var p := Preamble(agentName, taskId, time);
    if |p| + |Footer| <= |m| && m[..|p|] == p && m[|m| - |Footer|..] == Footer then
      var r := m[|p|..|m| - |Footer|];
      assert m == p + r + Footer;
      Some(r)
    else None
  }

  /** The request is carried verbatim: no truncation, no escaping. */
  lemma QuotedRequestRoundTrip(agentName: string, taskId: string, time: string, request: string)
    ensures QuotedRequest(MessageText(agentName, taskId, time, request), agentName, taskId, time)
         == Some(request)
  {
    var p := Preamble(agentName, taskId, time);
    var m := MessageText(agentName, taskId, time, request);
    assert m[..|p|] == p;
    assert m[|p|..|m| - |Footer|] == request;
  }

  // ---------------------------------------------------------------------------
  // The handler

  /** The three fields the handler insists on. */
  predicate HasRequiredFields(sub: Submission) {
    sub.taskId != "" && sub.agentName != "" && sub.request != ""
  }

  function SendUrl(token: string): string {
    "https://api.telegram.org/bot" + token + "/sendMessage"
  }

  /** `handler(req, res)`: `token` is the bot token ("" when unset), `time` the rendered timestamp. */
  function Handle(sub: Submission, token: string, time: string, upstream: Upstream): (o: Outcome)
    ensures sub.httpMethod != "POST" ==> o == Outcome(Response(405, MethodNotAllowed), None)
    // Missing fields are reported before a missing token.
    ensures sub.httpMethod == "POST" && !HasRequiredFields(sub) ==> o == Outcome(Response(400, MissingFields), None)
    ensures sub.httpMethod == "POST" && HasRequiredFields(sub) && token == ""
      ==> o == Outcome(Response(500, NoToken), None)
    ensures o.call.Some? <==> sub.httpMethod == "POST" && HasRequiredFields(sub) && token != ""
    ensures o.call.Some? ==>
      && o.call.value.chatId == OperatorChat
      && o.call.value.url == SendUrl(token)
      && o.call.value.parseMode == "HTML"
      && QuotedRequest(o.call.value.text, sub.agentName, sub.taskId, time) == Some(sub.request)
      && OccursAt(o.call.value.text, sub.agentName, |Header|)
      && OccursAt(o.call.value.text, sub.taskId, |Header| + |sub.agentName| + |TaskLine|)
    ensures o.response.status == 200 <==> o.call.Some? && upstream.Delivered?
    ensures o.response.status == 200 ==> o.response.body == Sent(upstream.messageId, sub.taskId)
    ensures o.call.Some? && upstream.Rejected? ==> o.response == Response(500, SendFailed(upstream.details))
    ensures o.call.Some? && upstream.Threw? ==> o.response == Response(500, InternalError(upstream.message))
  {
    if sub.httpMethod != "POST" then Outcome(Response(405, MethodNotAllowed), None)
    else if !HasRequiredFields(sub) then Outcome(Response(400, MissingFields), None)
    else if token == "" then Outcome(Response(500, NoToken), None)
    else
      var text := MessageText(sub.agentName, sub.taskId, time, sub.request);
      QuotedRequestRoundTrip(sub.agentName, sub.taskId, time, sub.request);
      var call := Call(SendUrl(token), OperatorChat, text, "HTML");
      match upstream
      case Delivered(id) => Outcome(Response(200, Sent(id, sub.taskId)), Some(call))
      case Rejected(details) => Outcome(Response(500, SendFailed(details)), Some(call))
      case Threw(msg) => Outcome(Response(500, InternalError(msg)), Some(call))
  }

  /** `agentId` is never validated and never used: changing it changes nothing. */
  lemma AgentIdIgnored(sub: Submission, agentId: string, token: string, time: string, upstream: Upstream)
    ensures Handle(sub.(agentId := agentId), token, time, upstream) == Handle(sub, token, time, upstream)
  {
  }

  /** The recipient is the very chat whose replies the webhook accepts. */
  lemma RecipientIsAcceptedSender(sub: Submission, token: string, time: string, upstream: Upstream, chatId: int)
    requires Handle(sub, token, time, upstream).call.Some?
    ensures Handle(sub, token, time, upstream).call.value.chatId == IntToString(chatId)
        <==> chatId == OperatorChatId
  {
    OperatorChatString(chatId);
  }
}
