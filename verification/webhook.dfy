/**
 * The inbound correlator (`api/webhook.js`): a chat update is filtered, a task id is
 * extracted from its text, the reply text is cut out, and a completion record is
 * written to the durable store.
 */
module Webhook {
  import opened Wrappers
  import opened Text
  import opened Decimal
  import opened Relay

  /**
   * The chat message of an update; an empty `text` stands for a missing or empty one, and
   * `chatId` is `None` when the message carries no `chat` (or no `chat.id`).
   */
  datatype Message = Message(text: string, chatId: Option<int>)

  datatype Request = Request(httpMethod: string, message: Option<Message>)

  /** The JSON bodies the handler answers with. */
  datatype Body =
    | MethodNotAllowed             // { error: 'Method not allowed' }
    | Ack                          // { ok: true }
    | NoTaskId                     // { ok: true, message: 'No task ID found in message' }
    | Saved(taskId: string)        // { ok: true, taskId, message: 'Response saved' }
    | SaveFailed(details: string)  // { error: 'Failed to save response', details }
    | Crashed                      // an uncaught exception; the platform answers 500

  datatype Response = Response(status: int, body: Body)

  /** What writing the task file, committing and pushing it came to; the shell-out is outside the model. */
  datatype Persist = Pushed | PushFailed(details: string)

  datatype Outcome = Outcome(response: Response, store: Store)

  // ---------------------------------------------------------------------------
  // The task-id pattern /scribe-\d+|sage-\d+|dev-\d+|analyst-\d+|pixel-\d+|client-\d+/

  /** `id` is a task id written in `s` at `i` whose digit run cannot be extended to the right. */
  ghost predicate IdAt(s: string, i: int, id: string) {
    OccursAt(s, id, i) && IsTaskId(id) && (i + |id| == |s| || !IsDigit(s[i + |id|]))
  }

  /** Length of the run of digits starting at `i` (greedy `\d+`). */
  function DigitRun(s: string, i: nat): (n: nat)
    requires i <= |s|
    ensures i + n <= |s|
    ensures forall k :: i <= k < i + n ==> IsDigit(s[k])
    ensures i + n == |s| || !IsDigit(s[i + n])
    decreases |s| - i
  {
    if i < |s| && IsDigit(s[i]) then 1 + DigitRun(s, i + 1) else 0
  }

  /** A maximal digit run is the one `DigitRun` finds. */
  lemma DigitRunUnique(s: string, i: nat, n: nat)
    requires i + n <= |s|
    requires forall k :: i <= k < i + n ==> IsDigit(s[k])
    requires i + n == |s| || !IsDigit(s[i + n])
    ensures DigitRun(s, i) == n
  {
  }

  /** The alternative `<tag>-\d+` tried at position `i`. */
  function MatchTagAt(s: string, i: nat, tag: string): (r: Option<string>)
    requires i <= |s|
    ensures r.Some? ==> OccursAt(s, r.value, i) && IsTaskIdFor(r.value, tag)
    ensures r.Some? ==> i + |r.value| == |s| || !IsDigit(s[i + |r.value|])
  {
    var j := i + |tag| + 1;
    if j <= |s| && s[i..j] == tag + "-" then
      var n := DigitRun(s, j);
      if n > 0 then
        assert s[i..j + n][|tag| + 1..] == s[j..j + n];
        Some(s[i..j + n])
      else None
    else None
  }

  /** The alternatives from the `k`-th on, tried in order at position `i`. */
  function MatchFrom(s: string, i: nat, k: nat): (r: Option<string>)
    requires i <= |s| && k <= |Tags|
    decreases |Tags| - k
  {
    if k == |Tags| then None
    else
      match MatchTagAt(s, i, Tags[k])
      case Some(id) => Some(id)
      case None => MatchFrom(s, i, k + 1)
  }

  /** What the alternatives find is a task id written at `i`. */
  lemma {:induction false} MatchFromSound(s: string, i: nat, k: nat)
    requires i <= |s| && k <= |Tags|
    ensures MatchFrom(s, i, k).Some? ==> IdAt(s, i, MatchFrom(s, i, k).value)
    decreases |Tags| - k
  {
    if k < |Tags| {
      if MatchTagAt(s, i, Tags[k]).None? {
        MatchFromSound(s, i, k + 1);
      } else {
        assert Tags[k] in Tags;
      }
    }
  }

  /** When the alternatives find nothing, each of them failed. */
  lemma {:induction false} MatchFromNone(s: string, i: nat, k: nat)
    requires i <= |s| && k <= |Tags|
    ensures MatchFrom(s, i, k).None? ==> forall k' :: k <= k' < |Tags| ==> MatchTagAt(s, i, Tags[k']).None?
    decreases |Tags| - k
  {
    if k < |Tags| && MatchTagAt(s, i, Tags[k]).None? {
      MatchFromNone(s, i, k + 1);
    }
  }

  /** Every task id written at `i` is found by one of the alternatives. */
  lemma MatchComplete(s: string, i: nat, id: string)
    requires i <= |s| && IdAt(s, i, id)
    ensures MatchFrom(s, i, 0).Some?
  {
    var t :| t in Tags && IsTaskIdFor(id, t);
    var k :| 0 <= k < |Tags| && Tags[k] == t;
    TagAt(s, i, id, t);
    IdDigitRun(s, i, id, t);
    assert s[i..i + |t| + 1] == t + "-";
    assert MatchTagAt(s, i, Tags[k]).Some?;
    MatchFromNone(s, i, 0);
  }

  /** The leftmost position at or after `from` where the pattern matches, and the id matched. */
  function FindFrom(s: string, from: nat): (r: Option<(nat, string)>)
    requires from <= |s|
    ensures r.Some? ==> from <= r.value.0 <= |s| && MatchFrom(s, r.value.0, 0) == Some(r.value.1)
    decreases |s| - from
  {
    match MatchFrom(s, from, 0)
    case Some(id) => Some((from, id))
    case None => if from == |s| then None else FindFrom(s, from + 1)
  }

  /** The search misses nothing: no alternative matches before the position found, or anywhere when nothing is found. */
  lemma {:induction false} FindFromLeftmost(s: string, from: nat)
    requires from <= |s|
    ensures FindFrom(s, from).Some? ==>
      forall p :: from <= p < FindFrom(s, from).value.0 ==> MatchFrom(s, p, 0).None?
    ensures FindFrom(s, from).None? ==> forall p :: from <= p <= |s| ==> MatchFrom(s, p, 0).None?
    decreases |s| - from
  {
    var here := MatchFrom(s, from, 0);
    if here.None? {
      if from < |s| {
        FindFromLeftmost(s, from + 1);
        var r := FindFrom(s, from + 1);
        assert FindFrom(s, from) == r;
        var end := if r.Some? then r.value.0 else |s| + 1;
        forall p | from <= p < end
          ensures MatchFrom(s, p, 0).None?
        {
          if p == from {
            assert MatchFrom(s, p, 0) == here;
          }
        }
      } else {
        forall p | from <= p <= |s|
          ensures MatchFrom(s, p, 0).None?
        {
          assert p == from;
        }
      }
    }
  }

  /** The extracted id is a task id written where it was found. */
  lemma FoundIsId(s: string)
    requires FindTaskId(s).Some?
    ensures IdAt(s, FindTaskId(s).value.0, FindTaskId(s).value.1)
  {
    MatchFromSound(s, FindTaskId(s).value.0, 0);
  }

  /** No task id is written before the one extracted. */
  lemma FoundIsLeftmost(s: string)
    requires FindTaskId(s).Some?
    ensures forall q, id :: 0 <= q < FindTaskId(s).value.0 ==> !IdAt(s, q, id)
  {
    FindFromLeftmost(s, 0);
    forall q, id | 0 <= q < FindTaskId(s).value.0
      ensures !IdAt(s, q, id)
    {
      NoIdWithoutMatch(s, q);
    }
  }

  /** When nothing is extracted, no task id is written anywhere. */
  lemma NotFoundMeansNone(s: string)
    requires FindTaskId(s).None?
    ensures forall p, id :: !IdAt(s, p, id)
  {
    FindFromLeftmost(s, 0);
    forall p, id
      ensures !IdAt(s, p, id)
    {
      if 0 <= p <= |s| {
        NoIdWithoutMatch(s, p);
      }
    }
  }

  /** Where no alternative matches, no task id is written. */
  lemma NoIdWithoutMatch(s: string, i: nat)
    requires i <= |s| && MatchFrom(s, i, 0).None?
    ensures forall id :: !IdAt(s, i, id)
  {
    forall id | IdAt(s, i, id)
      ensures false
    {
      MatchComplete(s, i, id);
    }
  }

  /** `text.match(pattern)`: the leftmost task id in the text. */
  function FindTaskId(text: string): Option<(nat, string)> {
    FindFrom(text, 0)
  }

  // ---------------------------------------------------------------------------
  // Response segmentation: `text.split(taskId)[1]?.trim() || text`

  /** `text.split(id)[1]`: what lies between the first occurrence of `id` and the next one, or the end. */
  function SecondPiece(text: string, id: string): (piece: string)
    requires Contains(text, id)
    ensures var p := IndexOf(text, id).value;
      && p + |id| + |piece| <= |text|
      && text[p + |id|..p + |id| + |piece|] == piece
      && (p + |id| + |piece| == |text| || OccursAt(text, id, p + |id| + |piece|))
    ensures |id| > 0 ==> !Contains(piece, id)
  {
    var p := IndexOf(text, id).value;
    var rest := text[p + |id|..];
    match IndexOf(rest, id)
    case None => rest
    case Some(q) =>
      assert rest[q..q + |id|] == text[p + |id| + q..p + |id| + q + |id|];
      NoneBeforeFirst(rest, id, q);
      rest[..q]
  }

  /** The reply content: the trimmed second piece, or the whole text when that is empty. */
  function ResponseContent(text: string, id: string): (c: string)
    requires |id| > 0 && Contains(text, id)
    ensures c != ""
    ensures c == text || (c == JsTrim(SecondPiece(text, id)) && !Contains(c, id))
  {
    var piece := SecondPiece(text, id);
    var t := JsTrim(piece);
    if t == "" then text
    else
      NotContainsTrim(piece, JsWhitespace, id);
      t
  }

  /** The completion record written for a reply that names `id`. */
  function CompletionRecord(text: string, id: string, now: int): (r: Record)
    requires |id| > 0 && Contains(text, id)
    ensures r.id == id && r.status == "completed" && r.agentId == AgentOf(id)
    ensures r.response.Some? && r.response.value.completedAt == now
    ensures r.response.value.content == ResponseContent(text, id)
  {
    Record(id, AgentOf(id), "completed", Some(Reply(ResponseContent(text, id), now)))
  }

  // ---------------------------------------------------------------------------
  // The handler

  /** The text of the update, when there is a message with a non-empty text. */
  function TextOf(req: Request): Option<string> {
    if req.message.Some? && req.message.value.text != "" then Some(req.message.value.text) else None
  }

  /** The message says which chat it came from; reading `message.chat.id` throws otherwise. */
  predicate HasChat(req: Request)
    requires req.message.Some?
  {
    req.message.value.chatId.Some?
  }

  /** The update comes from the operator's chat. */
  predicate FromOperator(req: Request)
    requires req.message.Some? && HasChat(req)
  {
    IntToString(req.message.value.chatId.value) == OperatorChat
  }

  /** `handler(req, res)` with the durable store, the clock and the push outcome made explicit. */
  function Handle(req: Request, store: Store, now: int, persist: Persist): (o: Outcome)
    // Only POST is served; nothing is written otherwise.
    ensures req.httpMethod != "POST" ==> o == Outcome(Response(405, MethodNotAllowed), store)
    // No message or no text: acknowledged and ignored.
    ensures req.httpMethod == "POST" && TextOf(req).None? ==> o == Outcome(Response(200, Ack), store)
    // A text without a chat: `message.chat.id` throws outside the try, so the platform answers 500.
    ensures req.httpMethod == "POST" && TextOf(req).Some? && !HasChat(req) ==> o == Outcome(Response(500, Crashed), store)
    // Anyone but the operator: acknowledged and ignored, whatever the text.
    ensures req.httpMethod == "POST" && TextOf(req).Some? && HasChat(req) && !FromOperator(req)
      ==> o == Outcome(Response(200, Ack), store)
    // No task id anywhere in the text.
    ensures req.httpMethod == "POST" && TextOf(req).Some? && HasChat(req) && FromOperator(req)
      && (forall p, id :: !IdAt(TextOf(req).value, p, id))
      ==> o == Outcome(Response(200, NoTaskId), store)
    // A task id somewhere in an operator's text, and a successful push: the reply is saved.
    ensures req.httpMethod == "POST" && TextOf(req).Some? && HasChat(req) && FromOperator(req) && persist.Pushed?
      && (exists p, id :: IdAt(TextOf(req).value, p, id))
      ==> o.response.body.Saved?
    // Only a saved reply changes the store, and then only at the leftmost id, with its completion record.
    ensures !o.response.body.Saved? ==> o.store == store
    ensures o.response.body.Saved? ==>
      var id := o.response.body.taskId;
      && o.response.status == 200
      && req.httpMethod == "POST" && TextOf(req).Some? && HasChat(req) && FromOperator(req) && persist.Pushed?
      && (exists p :: IdAt(TextOf(req).value, p, id)
                      && forall q, id' :: 0 <= q < p ==> !IdAt(TextOf(req).value, q, id'))
      && o.store == store[id := CompletionRecord(TextOf(req).value, id, now)]
    // The missing chat, and a failed push after a match, are the only server errors.
    ensures o.response.status == 500 <==>
      req.httpMethod == "POST" && TextOf(req).Some?
      && (!HasChat(req) || (FromOperator(req) && FindTaskId(TextOf(req).value).Some? && persist.PushFailed?))
  {
    if req.httpMethod != "POST" then Outcome(Response(405, MethodNotAllowed), store)
    else if TextOf(req).None? then Outcome(Response(200, Ack), store)
    else if !HasChat(req) then Outcome(Response(500, Crashed), store)
    else if !FromOperator(req) then Outcome(Response(200, Ack), store)
    else
      var text := TextOf(req).value;
      match FindTaskId(text)
      case None =>
        NotFoundMeansNone(text);
        Outcome(Response(200, NoTaskId), store)
      case Some((p, id)) =>
        FoundIsId(text);
        FoundIsLeftmost(text);
        assert OccursAt(text, id, p);
        match persist
        case Pushed => Outcome(Response(200, Saved(id)), store[id := CompletionRecord(text, id, now)])
        case PushFailed(details) => Outcome(Response(500, SaveFailed(details)), store)
  }

  /**
   * An operator's message whose leftmost task id is `id`, pushed successfully, is answered with
   * `Saved(id)`, and the store gains exactly that id's completion record.
   */
  lemma SavesLeftmostId(req: Request, store: Store, now: int, at: nat, id: string)
    requires req.httpMethod == "POST" && TextOf(req).Some? && HasChat(req) && FromOperator(req)
    requires IdAt(TextOf(req).value, at, id)
    requires forall q, id' :: 0 <= q < at ==> !IdAt(TextOf(req).value, q, id')
    ensures |id| > 0 && Contains(TextOf(req).value, id)
    ensures Handle(req, store, now, Pushed)
      == Outcome(Response(200, Saved(id)), store[id := CompletionRecord(TextOf(req).value, id, now)])
  {
    var text := TextOf(req).value;
    var o := Handle(req, store, now, Pushed);
    assert o.response.body.Saved?;
    var saved := o.response.body.taskId;
    var p :| IdAt(text, p, saved) && forall q, id' :: 0 <= q < p ==> !IdAt(text, q, id');
    if p < at {
      assert false;
    } else if at < p {
      assert false;
    }
    IdAtUnique(text, at, id, saved);
  }

  /** A task id written at `i` spells its tag, then `-`, then its digits, in `s`. */
  lemma TagAt(s: string, i: int, id: string, t: string)
    requires OccursAt(s, id, i) && t in Tags && IsTaskIdFor(id, t)
    ensures '-' !in t
    ensures s[i..i + |t|] == t && s[i + |t|] == '-' && s[i] == t[0]
  {
    TagShape(t);
    var head := s[i..i + |t| + 1];
    assert s[i..i + |id|][..|t| + 1] == head;
    assert head == t + "-";
    assert head[..|t|] == s[i..i + |t|];
    assert head[|t|] == s[i + |t|];
    assert head[0] == s[i];
  }

  /** Two task ids written at the same position spell the same tag: no tag contains `-`. */
  lemma SameTag(s: string, i: int, a: string, ta: string, b: string, tb: string)
    requires OccursAt(s, a, i) && ta in Tags && IsTaskIdFor(a, ta)
    requires OccursAt(s, b, i) && tb in Tags && IsTaskIdFor(b, tb)
    ensures ta == tb
  {
    TagAt(s, i, a, ta);
    TagAt(s, i, b, tb);
    if |ta| == |tb| {
      assert ta == s[i..i + |ta|] == tb;
    }
  }

  /** At most one task id is written at any position: tags contain no `-` and digit runs are maximal. */
  lemma IdAtUnique(s: string, i: int, a: string, b: string)
    requires IdAt(s, i, a) && IdAt(s, i, b)
    ensures a == b
  {
    var ta :| ta in Tags && IsTaskIdFor(a, ta);
    var tb :| tb in Tags && IsTaskIdFor(b, tb);
    SameTag(s, i, a, ta, b, tb);
    IdDigitRun(s, i, a, ta);
    IdDigitRun(s, i, b, ta);
    assert a == s[i..i + |a|] == b;
  }

  /** The digits of a task id written at `i` are the maximal digit run after its tag. */
  lemma IdDigitRun(s: string, i: nat, id: string, t: string)
    requires OccursAt(s, id, i) && IsTaskIdFor(id, t)
    requires i + |id| == |s| || !IsDigit(s[i + |id|])
    ensures DigitRun(s, i + |t| + 1) == |id| - |t| - 1
  {
    var j := i + |t| + 1;
    var n := |id| - |t| - 1;
    assert j + n == i + |id|;
    forall k | j <= k < j + n
      ensures IsDigit(s[k])
    {
      assert s[k] == id[k - i] == id[|t| + 1..][k - j];
    }
    if j + n < |s| {
      assert s[j + n] == s[i + |id|];
    }
    DigitRunUnique(s, j, n);
  }

  /** The extracted id is the unique id at the leftmost position where any id is written. */
  lemma FindTaskIdCharacterised(s: string, p: nat, id: string)
    requires IdAt(s, p, id)
    requires forall q, id' :: 0 <= q < p ==> !IdAt(s, q, id')
    ensures FindTaskId(s) == Some((p, id))
  {
    var r := FindTaskId(s);
    if r.None? {
      NotFoundMeansNone(s);
    }
    FoundIsId(s);
    FoundIsLeftmost(s);
    assert r.Some?;
    assert r.value.0 == p;
    IdAtUnique(s, p, id, r.value.1);
  }

  /** A string missing one of the characters of `sub` does not contain `sub`. */
  lemma MissingChar(s: string, sub: string, k: nat)
    requires k < |sub| && sub[k] !in s
    ensures !Contains(s, sub)
  {
  }

  // ---------------------------------------------------------------------------
  // Worked examples

  /** The id is cut out and the rest trimmed of whitespace: `"sage-1000 Audit done"`. */
  lemma SegmentationExample(text: string, id: string)
    requires text == "sage-1000 Audit done" && id == "sage-1000"
    ensures Contains(text, id) && ResponseContent(text, id) == "Audit done"
  {
    AuditPiece(text, id);
    AuditTrim(SecondPiece(text, id));
  }

  lemma AuditPiece(text: string, id: string)
    requires text == "sage-1000 Audit done" && id == "sage-1000"
    ensures Contains(text, id) && SecondPiece(text, id) == " Audit done"
  {
    assert OccursAt(text, id, 0);
    var rest := text[9..];
    assert rest == " Audit done";
    MissingChar(rest, id, 4);
  }

  lemma AuditTrim(rest: string)
    requires rest == " Audit done"
    ensures JsTrim(rest) == rest[1..] == "Audit done"
  {
    var t := rest[1..];
    assert rest == [' '] + t;
    AuditTrimmed(t);
    TrimLeading(' ', t, JsWhitespace);
    TrimTrimmed(t, JsWhitespace);
  }

  lemma AuditTrimmed(t: string)
    requires t == "Audit done"
    ensures Trimmed(t, JsWhitespace)
  {
  }

  /** Only whitespace is trimmed, so the dash after the id survives: `"scribe-1 - Here"` gives `"- Here"`. */
  lemma DashSurvivesExample(text: string, id: string)
    requires text == "scribe-1 - Here" && id == "scribe-1"
    ensures Contains(text, id) && ResponseContent(text, id) == "- Here"
  {
    DashPiece(text, id);
    DashTrim(SecondPiece(text, id));
  }

  lemma DashTrim(rest: string)
    requires rest == " - Here"
    ensures JsTrim(rest) == rest[1..] == "- Here"
  {
    var t := rest[1..];
    assert rest == [' '] + t;
    DashTrimmed(t);
    TrimLeading(' ', t, JsWhitespace);
    TrimTrimmed(t, JsWhitespace);
  }

  lemma DashTrimmed(t: string)
    requires t == "- Here"
    ensures Trimmed(t, JsWhitespace)
  {
  }

  lemma DashPiece(text: string, id: string)
    requires text == "scribe-1 - Here" && id == "scribe-1"
    ensures Contains(text, id) && SecondPiece(text, id) == " - Here"
  {
    assert OccursAt(text, id, 0);
    var rest := text[8..];
    assert rest == " - Here";
    MissingChar(rest, id, 0);
  }

  /** An id with nothing after it: the whole text is the content. */
  lemma BareIdExample(text: string)
    requires text == "dev-1699999999999"
    ensures Contains(text, text) && ResponseContent(text, text) == text
  {
    assert OccursAt(text, text, 0);
    assert text[|text|..] == "";
  }

  /** No word boundary is needed before the tag: `"xdev-12 done"` yields `"dev-12"`. */
  lemma NoWordBoundaryExample(s: string)
    requires s == "xdev-12 done"
    ensures FindTaskId(s) == Some((1, "dev-12"))
  {
    assert IsTaskIdFor("dev-12", "dev");
    assert s[1..7] == "dev-12";
    assert IdAt(s, 1, "dev-12");
    forall id | IdAt(s, 0, id) ensures false {
      var t :| t in Tags && IsTaskIdFor(id, t);
      TagAt(s, 0, id, t);
    }
    FindTaskIdCharacterised(s, 1, "dev-12");
  }
}
