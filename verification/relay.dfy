/**
 * Vocabulary shared by the three parts of the mission-control task relay: the dashboard
 * that issues tasks, the notifier that forwards them to the operator's chat, and the
 * webhook that correlates the operator's replies back to tasks.
 */
module Relay {
  import opened Wrappers
  import opened Text
  import opened Decimal

  /** The agent tags, in the order the webhook's task-id pattern lists them. */
  const Tags: seq<string> := ["scribe", "sage", "dev", "analyst", "pixel", "client"]

  /** The operator's chat id: the notifier's only recipient and the webhook's only accepted sender. */
  const OperatorChatId: int := 7548763122
  const OperatorChat: string := "7548763122"

  /** `id` has the shape `<tag>-<digits>` for one of the agent tags. */
  ghost predicate IsTaskId(id: string) {
    exists t :: t in Tags && IsTaskIdFor(id, t)
  }

  ghost predicate IsTaskIdFor(id: string, t: string) {
    |id| > |t| + 1 && id[..|t| + 1] == t + "-" && AllDigits(id[|t| + 1..])
  }

  /** The agent part of a task id: `taskId.split('-')[0]`. */
  function AgentOf(id: string): string {
    Split(id, '-')[0]
  }

  /** For a well-formed id the agent part is exactly the tag it was built from. */
  lemma AgentOfTaskId(id: string, t: string)
    requires t in Tags && IsTaskIdFor(id, t)
    ensures AgentOf(id) == t
  {
    TagShape(t);
    assert id[..|t| + 1][..|t|] == id[..|t|];
    assert id[..|t| + 1][|t|] == id[|t|];
    SplitFirst(id, '-', |t|);
  }

  /** Every tag is a non-empty word without `-`. */
  lemma TagShape(t: string)
    requires t in Tags
    ensures |t| > 0 && '-' !in t
  {
  }

  /** The operator chat's string form is the string form of its numeric id, and of no other number. */
  lemma OperatorChatString(chatId: int)
    ensures IntToString(chatId) == OperatorChat <==> chatId == OperatorChatId
  {
    OperatorChatRendered(OperatorChatId);
    IntToStringInjective(chatId, OperatorChatId);
  }

  lemma OperatorChatRendered(n: int)
    requires n == 7548763122
    ensures IntToString(n) == "7548763122"
  {
    NatToStringAppend(75, 7, 5, "7");
    NatToStringAppend(754, 75, 4, "75");
    NatToStringAppend(7548, 754, 8, "754");
    NatToStringAppend(75487, 7548, 7, "7548");
    NatToStringAppend(754876, 75487, 6, "75487");
    NatToStringAppend(7548763, 754876, 3, "754876");
    NatToStringAppend(75487631, 7548763, 1, "7548763");
    NatToStringAppend(754876312, 75487631, 2, "75487631");
    NatToStringAppend(7548763122, 754876312, 2, "754876312");
  }

  /** The response part of a completed task. */
  datatype Reply = Reply(content: string, completedAt: int)

  /** A task file in the shared durable store (`tasks/<id>.json`). */
  datatype Record = Record(id: string, agentId: string, status: string, response: Option<Reply>)

  /** The durable store the webhook writes and the dashboard polls, keyed by task id. */
  type Store = map<string, Record>
}
