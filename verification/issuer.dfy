/**
 * The issuing dashboard (`src/App.jsx`): submitting a request creates a pending task in
 * the browser's local store and notifies the operator; polling picks up completion
 * records from the remote store and surfaces them in the agent's chat.
 *
 * The local store is a map from key to entry; the order in which the browser enumerates
 * its keys is a parameter. The remote store is an oracle from task id to fetch result.
 */
module Issuer {
  import opened Wrappers
  import opened Text
  import opened Decimal
  import opened Relay
  import Notifier
  import Webhook

  /** The agent roster: id and display name. */
  const Agents: seq<(string, string)> := [
    ("sage", "Sage"), ("scribe", "Scribe"), ("dev", "Dev"),
    ("analyst", "Analyst"), ("pixel", "Pixel"), ("client", "Client")]

  /** `agents.find(a => a.id === agent)?.name` over a roster. */
  function FindName(roster: seq<(string, string)>, agent: string): (n: Option<string>)
    ensures n.Some? ==> exists i :: 0 <= i < |roster| && roster[i] == (agent, n.value)
    ensures n.None? <==> forall i :: 0 <= i < |roster| ==> roster[i].0 != agent
  {
    if roster == [] then None
    else if roster[0].0 == agent then Some(roster[0].1)
    else FindName(roster[1..], agent)
  }

  function AgentName(agent: string): Option<string> {
    FindName(Agents, agent)
  }

  /** A task as saved under `task-<id>`. */
  datatype Task = Task(
    id: string, agentId: string, agentName: Option<string>, request: string, status: string, timestamp: int)

  /** A local-store entry: a task, or the copy of a fetched completion record. */
  datatype Stored = TaskEntry(task: Task) | CompletionCopy(record: Record)

  datatype ChatMessage = ChatMessage(
    role: string, content: string, timestamp: int, taskId: Option<string>, isComplete: bool, isTaskCard: bool)

  datatype State = State(
    local: map<string, Stored>,
    activeTasks: map<string, string>,
    chats: map<string, seq<ChatMessage>>,
    input: string,
    selected: Option<string>)

  /** The body posted to the notifier. */
  datatype Payload = Payload(taskId: string, agentName: Option<string>, agentId: string, request: string, timestamp: int)

  /** What a submission produces: the next state, the notifier payload and the delayed confirmation card. */
  datatype Submitted = Submitted(state: State, payload: Option<Payload>, card: Option<ChatMessage>)

  function TaskKey(id: string): string {
    "task-" + id
  }

  function CompletedKey(id: string): string {
    "task-" + id + "-completed"
  }

  /** `prev[agent] || []` */
  function ChatOf(chats: map<string, seq<ChatMessage>>, agent: string): seq<ChatMessage> {
    if agent in chats then chats[agent] else []
  }

  function AppendChat(chats: map<string, seq<ChatMessage>>, agent: string, m: ChatMessage): (r: map<string, seq<ChatMessage>>)
    ensures ChatOf(r, agent) == ChatOf(chats, agent) + [m]
    ensures forall a :: a != agent ==> ChatOf(r, a) == ChatOf(chats, a)
  {
    chats[agent := ChatOf(chats, agent) + [m]]
  }

  // ---------------------------------------------------------------------------
  // Submitting a request

  /** The request as the confirmation card quotes it: its first 80 characters, then `...` if it was longer. */
  function Preview(request: string): (p: string)
    ensures |request| <= 80 ==> p == request
    ensures |request| > 80 ==> |p| == 83 && p[..80] == request[..80] && p[80..] == "..."
  {
    if |request| > 80 then request[..80] + "..." else request
  }

  /** A JavaScript template renders an `undefined` name as the word itself. */
  function NameText(name: Option<string>): string {
    if name.Some? then name.value else "undefined"
  }

  const CardHead := "\U{1F4CB} **TASK CREATED: "
  const CardAgentLine := "**\n\n\U{2705} **Notification sent to Ari via Telegram Bot!**\n\n\U{1F916} Agent: "
  const CardRequestLine := "\n\U{1F4DD} Request: \""
  const CardFoot := "\"\n\n\U{23F3} Ari has been notified and will process this task.\n"
    + "\U{1F4F1} Response will appear here automatically.\n\n"
    + "*No need to copy/paste \U{2014} the bot handles everything!*"

  /** The confirmation card: the task id, the agent's name and the request's preview between fixed text. */
  function CardText(taskId: string, name: Option<string>, request: string): string {
    CardHead + taskId + CardAgentLine + NameText(name) + CardRequestLine + Preview(request) + CardFoot
  }

  /** The card names the task, the agent (or `undefined`) and quotes the request's preview. */
  lemma CardShows(taskId: string, name: Option<string>, request: string)
    ensures var t := CardText(taskId, name, request);
      Contains(t, taskId) && Contains(t, NameText(name)) && Contains(t, Preview(request))
  {
    ContainsEachPart(CardHead, taskId, CardAgentLine, NameText(name), CardRequestLine, Preview(request), CardFoot);
  }

  /** The id of a task created for `agent` at time `now`. */
  function NewTaskId(agent: string, now: int): string {
    agent + "-" + IntToString(now)
  }

  /** `handleSendMessage` at time `now`. */
  function Submit(s: State, now: int): (r: Submitted)
    // Blank input or no agent: nothing happens.
    ensures JsTrim(s.input) == "" || s.selected.None? ==> r == Submitted(s, None, None)
    ensures JsTrim(s.input) != "" && s.selected.Some? ==>
      var agent := s.selected.value;
      var id := NewTaskId(agent, now);
      && r.payload == Some(Payload(id, AgentName(agent), agent, s.input, now))
      // The untrimmed request is saved as a pending task under `task-<id>`; nothing else is written.
      && r.state.local == s.local[TaskKey(id) := TaskEntry(Task(id, agent, AgentName(agent), s.input, "pending", now))]
      // The agent's active task is replaced by the new one.
      && r.state.activeTasks == s.activeTasks[agent := id]
      && r.state.input == "" && r.state.selected == s.selected
      && ChatOf(r.state.chats, agent) == ChatOf(s.chats, agent) + [ChatMessage("user", s.input, now, Some(id), false, false)]
      && (forall a :: a != agent ==> ChatOf(r.state.chats, a) == ChatOf(s.chats, a))
      // The task card, stamped with the same time, quotes the request cut to 80 characters.
      && r.card == Some(ChatMessage("agent", CardText(id, AgentName(agent), s.input), now, Some(id), false, true))
  {
    if JsTrim(s.input) == "" || s.selected.None? then Submitted(s, None, None)
    else
      var agent := s.selected.value;
      var id := NewTaskId(agent, now);
      var name := AgentName(agent);
      var user := ChatMessage("user", s.input, now, Some(id), false, false);
      var task := Task(id, agent, name, s.input, "pending", now);
      var card := ChatMessage("agent", CardText(id, name, s.input), now, Some(id), false, true);
      Submitted(
        State(s.local[TaskKey(id) := TaskEntry(task)], s.activeTasks[agent := id],
              AppendChat(s.chats, agent, user), "", s.selected),
        Some(Payload(id, name, agent, s.input, now)),
        Some(card))
  }

  /**
   * The card of a submission names its task id and quotes the request: whole when it has at most 80
   * characters, else its first 80 characters followed by `...`.
   */
  lemma SubmitCardQuotes(s: State, now: int)
    requires JsTrim(s.input) != "" && s.selected.Some?
    ensures var r := Submit(s, now);
      var id := NewTaskId(s.selected.value, now);
      && r.card.Some? && Contains(r.card.value.content, id)
      && (|s.input| <= 80 ==> Contains(r.card.value.content, s.input))
      && (|s.input| > 80 ==> Contains(r.card.value.content, s.input[..80] + "..."))
  {
    var id := NewTaskId(s.selected.value, now);
    CardShows(id, AgentName(s.selected.value), s.input);
  }

  /** The card appears half a second later, appended to whatever the chat holds by then. */
  function ShowCard(s: State, agent: string, card: ChatMessage): (r: State)
    ensures ChatOf(r.chats, agent) == ChatOf(s.chats, agent) + [card]
    ensures r.local == s.local && r.activeTasks == s.activeTasks
  {
    s.(chats := AppendChat(s.chats, agent, card))
  }

  /** The payload as the notifier receives it: `JSON.stringify` drops an undefined name. */
  function AsSubmission(p: Payload): Notifier.Submission {
    Notifier.Submission("POST", p.taskId, p.agentName.GetOr(""), p.agentId, p.request)
  }

  /** What reaches the dashboard of the notification: the notifier's answer, or a fetch that failed. */
  datatype NotifyReply = Answered(o: Notifier.Outcome) | FetchFailed

  /** The `.then`/`.catch` handlers of the notification: success and failure are only logged. */
  function OnNotifyReply(s: State, reply: NotifyReply): State {
    s
  }

  /** A submission for a rostered agent passes the notifier's field check; for an unknown agent it is refused with 400. */
  lemma SubmissionAccepted(s: State, now: int, token: string, time: string, upstream: Notifier.Upstream)
    requires Submit(s, now).payload.Some?
    ensures var p := Submit(s, now).payload.value;
      var o := Notifier.Handle(AsSubmission(p), token, time, upstream);
      (AgentName(p.agentId).Some? && AgentName(p.agentId).value != "" ==> Notifier.HasRequiredFields(AsSubmission(p)))
      && (AgentName(p.agentId).None? ==> o.response.status == 400)
  {
    PayloadFields(s, now);
    PayloadAccepted(Submit(s, now).payload.value, token, time, upstream);
  }

  /**
   * Whatever the notification comes to, delivered, refused or a failed fetch, the task stays
   * pending as the submission stored it, and the agent keeps it as its active task.
   */
  lemma NotificationKeepsTask(s: State, now: int, reply: NotifyReply)
    requires Submit(s, now).payload.Some?
    ensures var sub := Submit(s, now);
      var r := OnNotifyReply(sub.state, reply);
      var id := sub.payload.value.taskId;
      && TaskKey(id) in r.local
      && r.local[TaskKey(id)].TaskEntry? && r.local[TaskKey(id)].task.status == "pending"
      && r.local[TaskKey(id)].task.request == s.input
      && s.selected.value in r.activeTasks && r.activeTasks[s.selected.value] == id
  {
    assert JsTrim(s.input) != "" && s.selected.Some?;
  }

  /** A payload with an id and a request is accepted exactly when it names its agent. */
  lemma PayloadAccepted(p: Payload, token: string, time: string, upstream: Notifier.Upstream)
    requires p.taskId != "" && p.request != ""
    ensures p.agentName.Some? && p.agentName.value != "" ==> Notifier.HasRequiredFields(AsSubmission(p))
    ensures p.agentName.None? ==> Notifier.Handle(AsSubmission(p), token, time, upstream).response.status == 400
  {
    var sub := AsSubmission(p);
    assert sub.httpMethod == "POST" && sub.taskId == p.taskId && sub.request == p.request;
  }

  /** A submitted payload carries a non-empty id and request and the roster's name for its agent. */
  lemma PayloadFields(s: State, now: int)
    requires Submit(s, now).payload.Some?
    ensures var p := Submit(s, now).payload.value;
      p.taskId != "" && p.request != "" && p.agentName == AgentName(p.agentId)
  {
    assert JsTrim(s.input) != "";
    var agent := s.selected.value;
    assert Submit(s, now).payload.value == Payload(NewTaskId(agent, now), AgentName(agent), agent, s.input, now);
  }

  /** The id a submission creates is one the webhook's pattern reads, and names its agent. */
  lemma NewTaskIdIsTaskId(agent: string, now: int)
    requires agent in Tags && now >= 0
    ensures IsTaskIdFor(NewTaskId(agent, now), agent)
    ensures AgentOf(NewTaskId(agent, now)) == agent
  {
    var id := NewTaskId(agent, now);
    var digits := IntToString(now);
    assert id[..|agent| + 1] == agent + "-";
    assert id[|agent| + 1..] == digits;
    AgentOfTaskId(id, agent);
  }

  // ---------------------------------------------------------------------------
  // Polling for responses

  /** A key the poll looks at: `task-` prefix, no `-completed` anywhere. */
  predicate IsPendingKey(k: string) {
    StartsWith(k, "task-") && !Contains(k, "-completed")
  }

  predicate IsPendingEntry(local: map<string, Stored>, k: string) {
    k in local && IsPendingKey(k) && local[k].TaskEntry? && local[k].task.status == "pending"
  }

  /** The snapshot of pending tasks, in key-enumeration order. */
  function PendingTasks(local: map<string, Stored>, keys: seq<string>): (r: seq<Task>)
    ensures forall t :: t in r ==> exists k :: k in keys && IsPendingEntry(local, k) && local[k].task == t
    ensures forall k :: k in keys && IsPendingEntry(local, k) ==> local[k].task in r
  {
    if keys == [] then []
    else
      var here := if IsPendingEntry(local, keys[0]) then [local[keys[0]].task] else [];
      here + PendingTasks(local, keys[1..])
  }

  /** The outcome of fetching `tasks/<id>.json` from the remote store. */
  datatype Fetch =
    | NotOk              // a non-ok HTTP status, e.g. the file does not exist yet
    | Failed             // the fetch or the JSON parsing threw
    | Fetched(record: Record)

  function Lookup(remote: map<string, Fetch>, id: string): Fetch {
    if id in remote then remote[id] else NotOk
  }

  /** The fetched record is surfaced only when it says completed and carries a response. */
  predicate Surfaceable(f: Fetch) {
    f.Fetched? && f.record.status == "completed" && f.record.response.Some?
  }

  /** The agent already shows a completion message for the task. */
  predicate HasCompletion(chat: seq<ChatMessage>, id: string) {
    exists i :: 0 <= i < |chat| && chat[i].taskId == Some(id) && chat[i].isComplete
  }

  /** The chat message a completion record becomes; a zero completion time falls back to `now`. */
  function CompletionMessage(task: Task, rec: Record, now: int): ChatMessage
    requires rec.response.Some?
  {
    var reply := rec.response.value;
    ChatMessage("agent", reply.content, if reply.completedAt != 0 then reply.completedAt else now,
                Some(task.id), true, false)
  }

  /** Surfacing a completed task. */
  function Surface(s: State, task: Task, rec: Record, now: int): (r: State)
    requires rec.response.Some?
    ensures HasCompletion(ChatOf(s.chats, task.agentId), task.id) ==> r.chats == s.chats
    ensures !HasCompletion(ChatOf(s.chats, task.agentId), task.id) ==>
      ChatOf(r.chats, task.agentId) == ChatOf(s.chats, task.agentId) + [CompletionMessage(task, rec, now)]
    ensures forall a :: a != task.agentId ==> ChatOf(r.chats, a) == ChatOf(s.chats, a)
    ensures HasCompletion(ChatOf(r.chats, task.agentId), task.id)
    ensures r.local == s.local[TaskKey(task.id) := TaskEntry(task.(status := "completed"))]
                              [CompletedKey(task.id) := CompletionCopy(rec)]
    ensures r.activeTasks == s.activeTasks - {task.agentId}
    ensures r.input == s.input && r.selected == s.selected
  {
    var chat := ChatOf(s.chats, task.agentId);
    var msg := CompletionMessage(task, rec, now);
    var chats := if HasCompletion(chat, task.id) then s.chats else AppendChat(s.chats, task.agentId, msg);
    assert !HasCompletion(chat, task.id) ==> ChatOf(chats, task.agentId)[|chat|] == msg;
    State(s.local[TaskKey(task.id) := TaskEntry(task.(status := "completed"))][CompletedKey(task.id) := CompletionCopy(rec)],
          s.activeTasks - {task.agentId}, chats, s.input, s.selected)
  }

  /** One pass of the loop body: a non-ok response, a thrown error or an unfinished record leaves the state as it was. */
  function Step(s: State, task: Task, f: Fetch, now: int): (r: State)
    ensures !Surfaceable(f) ==> r == s
  {
    if Surfaceable(f) then Surface(s, task, f.record, now) else s
  }

  function Fold(s: State, tasks: seq<Task>, remote: map<string, Fetch>, now: int): State
    decreases |tasks|
  {
    if tasks == [] then s else Fold(Step(s, tasks[0], Lookup(remote, tasks[0].id), now), tasks[1..], remote, now)
  }

  /** `keys` is one enumeration of the local store's keys. */
  ghost predicate Enumerates(keys: seq<string>, local: map<string, Stored>) {
    (forall k :: k in keys <==> k in local) && (forall i, j :: 0 <= i < j < |keys| ==> keys[i] != keys[j])
  }

  /** `checkForResponses`: snapshot the pending tasks, then try each in turn. */
  function Poll(s: State, keys: seq<string>, remote: map<string, Fetch>, now: int): State
    requires Enumerates(keys, s.local)
  {
    Fold(s, PendingTasks(s.local, keys), remote, now)
  }

  // ---------------------------------------------------------------------------
  // The invariant and the poll's properties

  /** Every task entry sits under the key its id names. */
  ghost predicate WellFormed(s: State) {
    forall k :: k in s.local && s.local[k].TaskEntry? ==> k == TaskKey(s.local[k].task.id)
  }

  lemma SubmitPreservesWellFormed(s: State, now: int)
    requires WellFormed(s)
    ensures WellFormed(Submit(s, now).state)
  {
  }

  lemma SurfacePreservesWellFormed(s: State, task: Task, rec: Record, now: int)
    requires WellFormed(s) && rec.response.Some?
    ensures WellFormed(Surface(s, task, rec, now))
  {
  }

  /** Every pending entry is either still to be tried or has a record that cannot be surfaced. */
  ghost predicate Settling(s: State, rest: seq<Task>, remote: map<string, Fetch>) {
    && WellFormed(s)
    && forall k :: IsPendingEntry(s.local, k) ==>
         s.local[k].task in rest || !Surfaceable(Lookup(remote, s.local[k].task.id))
  }

  lemma {:induction false} FoldSettles(s: State, rest: seq<Task>, remote: map<string, Fetch>, now: int)
    requires Settling(s, rest, remote)
    ensures Settling(Fold(s, rest, remote, now), [], remote)
    decreases |rest|
  {
    if rest != [] {
      var t := rest[0];
      var f := Lookup(remote, t.id);
      var s' := Step(s, t, f, now);
      if Surfaceable(f) {
        SurfacePreservesWellFormed(s, t, f.record, now);
        forall k | IsPendingEntry(s'.local, k)
          ensures s'.local[k].task in rest[1..] || !Surfaceable(Lookup(remote, s'.local[k].task.id))
        {
          assert k != TaskKey(t.id) && k != CompletedKey(t.id);
          assert IsPendingEntry(s.local, k) && s'.local[k] == s.local[k];
          assert s.local[k].task != t;
        }
      } else {
        forall k | IsPendingEntry(s'.local, k)
          ensures s'.local[k].task in rest[1..] || !Surfaceable(Lookup(remote, s'.local[k].task.id))
        {
          assert rest == [t] + rest[1..];
        }
      }
      FoldSettles(s', rest[1..], remote, now);
    }
  }

  /** A pass over tasks none of which can be surfaced changes nothing. */
  lemma {:induction false} FoldQuiet(s: State, tasks: seq<Task>, remote: map<string, Fetch>, now: int)
    requires forall t :: t in tasks ==> !Surfaceable(Lookup(remote, t.id))
    ensures Fold(s, tasks, remote, now) == s
    decreases |tasks|
  {
    if tasks != [] {
      assert tasks[0] in tasks;
      FoldQuiet(s, tasks[1..], remote, now);
    }
  }

  /** A poll leaves nothing surfaceable pending. */
  lemma PollSettles(s: State, keys: seq<string>, remote: map<string, Fetch>, now: int)
    requires WellFormed(s) && Enumerates(keys, s.local)
    ensures Settling(Poll(s, keys, remote, now), [], remote)
  {
    FoldSettles(s, PendingTasks(s.local, keys), remote, now);
  }

  /** Polling again against the same remote store changes nothing: surfacing is idempotent. */
  lemma PollIdempotent(s: State, keys: seq<string>, keys': seq<string>, remote: map<string, Fetch>, now: int, now': int)
    requires WellFormed(s) && Enumerates(keys, s.local)
    requires Enumerates(keys', Poll(s, keys, remote, now).local)
    ensures Poll(Poll(s, keys, remote, now), keys', remote, now') == Poll(s, keys, remote, now)
  {
    var p := Poll(s, keys, remote, now);
    PollSettles(s, keys, remote, now);
    FoldQuiet(p, PendingTasks(p.local, keys'), remote, now');
  }

  // ---------------------------------------------------------------------------
  // The relay end to end

  /** A completion message, once shown, stays: later passes only append. */
  lemma {:induction false} FoldKeepsCompletion(s: State, tasks: seq<Task>, remote: map<string, Fetch>, now: int, agent: string, id: string)
    requires HasCompletion(ChatOf(s.chats, agent), id)
    ensures HasCompletion(ChatOf(Fold(s, tasks, remote, now).chats, agent), id)
    decreases |tasks|
  {
    if tasks != [] {
      var t := tasks[0];
      var s' := Step(s, t, Lookup(remote, t.id), now);
      var chat := ChatOf(s.chats, agent);
      var i :| 0 <= i < |chat| && chat[i].taskId == Some(id) && chat[i].isComplete;
      assert ChatOf(s'.chats, agent)[i] == chat[i];
      FoldKeepsCompletion(s', tasks[1..], remote, now, agent, id);
    }
  }

  /** A pass reaches every task it was given: one whose record is surfaceable ends up shown. */
  lemma {:induction false} FoldSurfaces(s: State, tasks: seq<Task>, remote: map<string, Fetch>, now: int, task: Task)
    requires task in tasks && Surfaceable(Lookup(remote, task.id))
    ensures HasCompletion(ChatOf(Fold(s, tasks, remote, now).chats, task.agentId), task.id)
    decreases |tasks|
  {
    var s' := Step(s, tasks[0], Lookup(remote, tasks[0].id), now);
    if tasks[0] == task {
      FoldKeepsCompletion(s', tasks[1..], remote, now, task.agentId, task.id);
    } else {
      assert task in tasks[1..];
      FoldSurfaces(s', tasks[1..], remote, now, task);
    }
  }

  /** The remote store as the poll sees it: the records the webhook has pushed. */
  function RemoteOf(store: Store): (remote: map<string, Fetch>)
    ensures forall id :: id in store ==> Lookup(remote, id) == Fetched(store[id])
    ensures forall id :: id !in store ==> Lookup(remote, id) == NotOk
  {
    map id | id in store :: Fetched(store[id])
  }

  /**
   * An operator's chat message whose leftmost task id names a pending task, saved by the webhook
   * with a successful push, is picked up by the next poll: the agent's chat shows the completion
   * and the task is no longer pending.
   */
  lemma RelayRoundTrip(s: State, keys: seq<string>, req: Webhook.Request, store: Store, t: int, now: int, id: string, at: nat)
    requires WellFormed(s) && Enumerates(keys, s.local) && IsPendingEntry(s.local, TaskKey(id))
    requires req.httpMethod == "POST" && Webhook.TextOf(req).Some?
    requires Webhook.HasChat(req) && Webhook.FromOperator(req)
    requires Webhook.IdAt(Webhook.TextOf(req).value, at, id)
    requires forall q, id' :: 0 <= q < at ==> !Webhook.IdAt(Webhook.TextOf(req).value, q, id')
    ensures var p := Poll(s, keys, RemoteOf(Webhook.Handle(req, store, t, Webhook.Pushed).store), now);
      && HasCompletion(ChatOf(p.chats, s.local[TaskKey(id)].task.agentId), id)
      && !IsPendingEntry(p.local, TaskKey(id))
  {
    Webhook.SavesLeftmostId(req, store, t, at, id);
    var remote := RemoteOf(Webhook.Handle(req, store, t, Webhook.Pushed).store);
    var task := s.local[TaskKey(id)].task;
    assert TaskKey(id) == TaskKey(task.id);
    assert id == TaskKey(id)[5..] == TaskKey(task.id)[5..] == task.id;
    assert Surfaceable(Lookup(remote, id));
    FoldSurfaces(s, PendingTasks(s.local, keys), remote, now, task);
    PollSettles(s, keys, remote, now);
  }
}
