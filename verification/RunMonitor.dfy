/** The run monitor: polls each launched run until it is terminal and relays changes. The remote side answers
    arbitrarily or fails; time is an opaque number. */
module RunMonitor {
  import opened Text
  import Lifecycle
  import SessionKeys

  // ----- remote answers -----

  datatype Details = Details(status: Option<string>, prUrl: Option<string>, summary: Option<string>)

  datatype Message = Message(id: Option<string>, kind: Option<string>, text: Option<string>)

  datatype Answer<+T> = Got(value: T) | Threw

  /** What the remote side answers when a run is polled: the agent (possibly null) and the conversation. */
  datatype PollAnswer = PollAnswer(agent: Answer<Option<Details>>, conversation: Answer<seq<Message>>)

  /** The last assistant message of a conversation. */
  function LatestAssistant(messages: seq<Message>): Option<Message>
  {
    if messages == [] then None
    else
      var last := messages[|messages| - 1];
      if last.kind == Some("assistant_message") then Some(last) else LatestAssistant(messages[..|messages| - 1])
  }

  predicate IsAssistant(m: Message)
  {
    m.kind == Some("assistant_message")
  }

  /** The message at p is from the assistant, and no later one is. */
  predicate LastAssistantAt(messages: seq<Message>, p: nat)
  {
    p < |messages| && IsAssistant(messages[p]) && forall q :: p < q < |messages| ==> !IsAssistant(messages[q])
  }

  /** The latest assistant message is the last one there is. */
  lemma {:induction false} LatestAssistantIsLast(messages: seq<Message>)
    ensures forall m :: LatestAssistant(messages) == Some(m)
                   <==> exists p: nat :: LastAssistantAt(messages, p) && messages[p] == m
    ensures LatestAssistant(messages) == None <==> forall p :: 0 <= p < |messages| ==> !IsAssistant(messages[p])
  {
    if messages != [] {
      var n := |messages| - 1;
      LatestAssistantIsLast(messages[..n]);
      if IsAssistant(messages[n]) {
        assert LastAssistantAt(messages, n);
        forall p: nat | LastAssistantAt(messages, p) ensures p == n {}
      } else {
        forall p: nat ensures LastAssistantAt(messages, p) <==> LastAssistantAt(messages[..n], p) {
          assert p < n ==> messages[..n][p] == messages[p];
        }
      }
    }
  }

  // ----- statuses -----

  /** Case folding as equalsIgnoreCase applies it against a word of ASCII letters. */
  function FoldCase(c: char): char
  {
    if 'a' <= c <= 'z' then c - 'a' + 'A'
    else if c == '\U{131}' || c == '\U{130}' then 'I'
    else if c == '\U{17F}' then 'S'
    else c
  }

  predicate EqualsIgnoreCase(word: string, s: string)
  {
    |word| == |s| && forall i :: 0 <= i < |s| ==> FoldCase(s[i]) == word[i]
  }

  predicate IsTerminalStatus(status: Option<string>)
  {
    && status.Some?
    && (EqualsIgnoreCase("FINISHED", status.value) || EqualsIgnoreCase("ERROR", status.value)
        || EqualsIgnoreCase("EXPIRED", status.value))
  }

  /** A run is terminal when its status reads finished, error or expired in any mixture of cases. */
  lemma TerminalExactlyWhen(status: Option<string>)
    requires status.Some? ==> forall i :: 0 <= i < |status.value| ==> status.value[i] < '\U{80}'
    ensures IsTerminalStatus(status)
       <==> status.Some? && AsciiLower(status.value) in {"finished", "error", "expired"}
  {
    if status.Some? {
      SameWord("FINISHED", "finished", status.value);
      SameWord("ERROR", "error", status.value);
      SameWord("EXPIRED", "expired", status.value);
    }
  }

  /** Three letters outside ASCII fold to ASCII ones. */
  lemma OtherLettersFold()
    ensures FoldCase('\U{131}') == 'I' == FoldCase('\U{130}') && FoldCase('\U{17F}') == 'S'
  {
  }

  lemma SameWord(upper: string, lower: string, s: string)
    requires |upper| == |lower| && forall i :: 0 <= i < |s| ==> s[i] < '\U{80}'
    requires forall i :: 0 <= i < |upper| ==> 'A' <= upper[i] <= 'Z' && lower[i] == LowerChar(upper[i])
    ensures EqualsIgnoreCase(upper, s) <==> AsciiLower(s) == lower
  {
    if |s| == |upper| {
      forall i | 0 <= i < |s| ensures FoldCase(s[i]) == upper[i] <==> LowerChar(s[i]) == lower[i] {}
      if AsciiLower(s) == lower {
        forall i | 0 <= i < |s| ensures FoldCase(s[i]) == upper[i] {
          assert AsciiLower(s)[i] == lower[i];
        }
      }
    }
  }

  // ----- records and updates -----

  datatype Record = Record(
    agentId: string,
    branchName: Option<string>,
    agentUrl: Option<string>,
    channelId: Option<string>,
    replyToMessageId: Option<string>,
    deliveryChannelId: Option<string>,
    status: Option<string>,
    prUrl: Option<string>,
    summary: Option<string>,
    lastAssistantMessageId: Option<string>,
    lastAssistantMessage: Option<string>,
    lastPolledAt: Option<int>,
    completedAt: Option<int>,
    terminalSent: bool)
  {
    predicate IsTerminal() { IsTerminalStatus(status) }

    /** The monitor skips the record from now on. */
    predicate Closed() { IsTerminal() && terminalSent }
  }

  datatype Update =
    | StatusUpdate(status: Option<string>, branchName: Option<string>, agentUrl: Option<string>)
    | PullRequest(url: string)
    | Feedback(id: Option<string>, text: Option<string>)
    | Terminal(status: Option<string>, prUrl: Option<string>, summary: Option<string>, lastMessage: Option<string>)

  function Appended(prefix: string, s: Option<string>, suffix: string): string
  {
    if Present(s) then prefix + s.value + suffix else ""
  }

  /** The message text. */
  function Render(u: Update): string
  {
    match u
    case StatusUpdate(status, branch, url) =>
      "Cursor agent status: " + OrElse(status, "null") + Appended(" on branch `", branch, "`")
      + Appended(". Track it at ", url, "")
    case PullRequest(url) => "Cursor opened a pull request: " + url
    case Feedback(_, text) => "Cursor feedback: " + OrElse(text, "null")
    case Terminal(status, prUrl, summary, lastMessage) =>
      if EqualsIgnoreCase("FINISHED", OrElse(status, "UNKNOWN")) then
        "Cursor finished the Luna request." + Appended(" PR: ", prUrl, "") + Appended(" Summary: ", summary, "")
      else
        "Cursor run ended with status " + OrElse(status, "UNKNOWN") + "."
        + if Present(summary) then Appended(" Summary: ", summary, "")
          else Appended(" Last feedback: ", lastMessage, "")
  }

  /** What each message says while the run goes on. */
  lemma MessagesSay(status: string, url: string, text: string, branch: string)
    requires !IsBlank(url) && !IsBlank(branch)
    ensures Render(StatusUpdate(Some(status), None, None)) == "Cursor agent status: " + status
    ensures Render(StatusUpdate(Some(status), Some(branch), Some(url)))
         == "Cursor agent status: " + status + (" on branch `" + branch + "`") + (". Track it at " + url)
    ensures Render(PullRequest(url)) == "Cursor opened a pull request: " + url
    ensures Render(Feedback(None, Some(text))) == "Cursor feedback: " + text
    ensures Render(StatusUpdate(None, None, None)) == "Cursor agent status: " + "null"
    ensures Render(Feedback(None, None)) == "Cursor feedback: " + "null"
  {
    hide IsBlank;
    AppendedAsIs(". Track it at ", url);
  }

  lemma AppendedAsIs(prefix: string, text: string)
    requires !IsBlank(text)
    ensures Appended(prefix, Some(text), "") == prefix + text
  {
    assert prefix + text + "" == prefix + text;
  }

  /** And at its end: a finished run shows pull request and summary, another one its summary, else the last feedback. */
  lemma EndsSay(url: string, text: string, summary: string)
    requires !IsBlank(url) && !IsBlank(text) && !IsBlank(summary)
    ensures Render(Terminal(Some("FINISHED"), Some(url), Some(summary), Some(text)))
         == "Cursor finished the Luna request." + (" PR: " + url) + (" Summary: " + summary)
    ensures Render(Terminal(Some("FINISHED"), None, None, Some(text))) == "Cursor finished the Luna request."
    ensures Render(Terminal(Some("ERROR"), Some(url), Some(summary), Some(text)))
         == "Cursor run ended with status " + "ERROR" + "." + (" Summary: " + summary)
    ensures Render(Terminal(Some("ERROR"), Some(url), None, Some(text)))
         == "Cursor run ended with status " + "ERROR" + "." + (" Last feedback: " + text)
    ensures Render(Terminal(None, None, None, None)) == "Cursor run ended with status " + "UNKNOWN" + "."
  {
    assert |"FINISHED"| == 8 && |"ERROR"| == 5 && |"UNKNOWN"| == 7;
    assert EqualsIgnoreCase("FINISHED", "FINISHED") && !EqualsIgnoreCase("FINISHED", "ERROR");
    assert !EqualsIgnoreCase("FINISHED", "UNKNOWN");
    hide IsBlank, EqualsIgnoreCase;
    AppendedAsIs(" PR: ", url);
    AppendedAsIs(" Summary: ", summary);
    AppendedAsIs(" Last feedback: ", text);
  }

  /** No update is ever suppressed for being blank. */
  lemma RenderIsNotBlank(u: Update)
    ensures !IsBlank(Render(u))
  {
    assert Render(u)[0] == 'C';
    assert !IsWhite('C');
  }

  datatype Sent = Sent(run: string, target: Option<string>, messageId: Option<string>, update: Update)

  /** Updates go to the thread when there is one, otherwise to the room as a reply. */
  function Addressed(r: Record, u: Update): Sent
  {
    if Lifecycle.Indexable(r.deliveryChannelId) then Sent(r.agentId, r.deliveryChannelId, None, u)
    else Sent(r.agentId, r.channelId, r.replyToMessageId, u)
  }

  // ----- one poll as a function -----

  function Applied(r: Record, d: Option<Details>, now: int): Record
  {
    if d.None? then r
    else r.(status := d.value.status, prUrl := d.value.prUrl, summary := d.value.summary, lastPolledAt := Some(now),
            completedAt := if IsTerminalStatus(d.value.status) && r.completedAt.None? then Some(now) else r.completedAt)
  }

  function Recorded(r: Record, m: Message, now: int): Record
  {
    r.(lastAssistantMessageId := m.id, lastAssistantMessage := m.text, lastPolledAt := Some(now))
  }

  function StatusOf(r: Record): Update { StatusUpdate(r.status, r.branchName, r.agentUrl) }

  function TerminalOf(r: Record): Update { Terminal(r.status, r.prUrl, r.summary, r.lastAssistantMessage) }

  datatype Polled = Polled(record: Record, updates: seq<Update>, threw: bool)

  /** The agent's part of a poll: apply the details, announce a changed status, then a changed pull request. */
  function PollAgent(r: Record, a: PollAnswer, now: int): Polled
  {
    if a.agent.Threw? then Polled(r, [], true)
    else
      var t := Applied(r, a.agent.value, now);
      Polled(t,
             (if t.status != r.status then [StatusOf(t)] else [])
             + (if t.prUrl != r.prUrl && t.prUrl.Some? then [PullRequest(t.prUrl.value)] else []), false)
  }

  /** The conversation's part: relay a new assistant message, then the end of the run. */
  function PollConversation(r: Record, a: PollAnswer, now: int): Polled
  {
    if a.conversation.Threw? then Polled(r, [], true)
    else
      var latest := LatestAssistant(a.conversation.value);
      var isNew := latest.Some? && latest.value.id != r.lastAssistantMessageId;
      var t := if isNew then Recorded(r, latest.value, now) else r;
      var ends := t.IsTerminal() && !t.terminalSent;
      Polled(if ends then t.(terminalSent := true) else t,
             (if isNew then [Feedback(latest.value.id, latest.value.text)] else [])
             + (if ends then [TerminalOf(t)] else []),
             false)
  }

  function Poll(r: Record, a: PollAnswer, now: int): Polled
  {
    var first := PollAgent(r, a, now);
    if first.threw then first
    else
      var second := PollConversation(first.record, a, now);
      Polled(second.record, first.updates + second.updates, second.threw)
  }

  /** A record carries the time of the last poll that learned something about the run. */
  lemma PollStampsTime(r: Record, a: PollAnswer, now: int)
    ensures a.agent.Got? && a.agent.value.Some? ==> Poll(r, a, now).record.lastPolledAt == Some(now)
    ensures var latest := if a.conversation.Got? then LatestAssistant(a.conversation.value) else None;
            a.agent.Got? && latest.Some? && latest.value.id != r.lastAssistantMessageId ==>
              Poll(r, a, now).record.lastPolledAt == Some(now)
    ensures a.agent.Threw? ==> Poll(r, a, now).record == r
  {
  }

  // ----- the mutable record and the monitor -----

  class LifecycleRunRecord {
    const agentId: string
    const branchName: Option<string>
    const agentUrl: Option<string>
    const channelId: Option<string>
    const replyToMessageId: Option<string>
    const deliveryChannelId: Option<string>
    var status: Option<string>
    var prUrl: Option<string>
    var summary: Option<string>
    var lastAssistantMessageId: Option<string>
    var lastAssistantMessage: Option<string>
    var lastPolledAt: Option<int>
    var completedAt: Option<int>
    var terminalNotificationSent: bool

    function Snap(): Record
      reads this
    {
      Record(agentId, branchName, agentUrl, channelId, replyToMessageId, deliveryChannelId, status, prUrl, summary,
             lastAssistantMessageId, lastAssistantMessage, lastPolledAt, completedAt, terminalNotificationSent)
    }

    constructor (agentId: string, branchName: Option<string>, agentUrl: Option<string>, channelId: Option<string>,
                 replyToMessageId: Option<string>, deliveryChannelId: Option<string>, status: Option<string>)
      ensures Snap() == Launched(agentId, branchName, agentUrl, channelId, replyToMessageId, deliveryChannelId, status)
    {
      this.agentId, this.branchName, this.agentUrl := agentId, branchName, agentUrl;
      this.channelId, this.replyToMessageId, this.deliveryChannelId := channelId, replyToMessageId, deliveryChannelId;
      this.status, prUrl, summary := status, None, None;
      lastAssistantMessageId, lastAssistantMessage, lastPolledAt, completedAt := None, None, None, None;
      terminalNotificationSent := false;
    }

    method ApplyAgentDetails(details: Option<Details>, now: int)
      modifies this
      ensures Snap() == Applied(old(Snap()), details, now)
    {
      if details.None? { return; }
      var d := details.value;
      status, prUrl, summary := d.status, d.prUrl, d.summary;
      lastPolledAt := Some(now);
      if IsTerminalStatus(d.status) && completedAt.None? {
        completedAt := Some(now);
      }
    }

    method RecordAssistantMessage(m: Message, now: int)
      modifies this
      ensures Snap() == Recorded(old(Snap()), m, now)
    {
      lastAssistantMessageId, lastAssistantMessage, lastPolledAt := m.id, m.text, Some(now);
    }

    method MarkTerminalNotificationSent()
      modifies this
      ensures Snap() == old(Snap()).(terminalSent := true)
    {
      terminalNotificationSent := true;
    }
  }

  /** A record as launch_cursor_run stores it. */
  function Launched(agentId: string, branchName: Option<string>, agentUrl: Option<string>, channelId: Option<string>,
                    replyToMessageId: Option<string>, deliveryChannelId: Option<string>, status: Option<string>): Record
  {
    Record(agentId, branchName, agentUrl, channelId, replyToMessageId, deliveryChannelId, status,
           None, None, None, None, None, None, false)
  }

  /** What the sender receives for a list of updates. */
  function Sends(r: Record, updates: seq<Update>): seq<Sent>
  {
    seq(|updates|, i requires 0 <= i < |updates| => Addressed(r, updates[i]))
  }

  lemma SendsAppend(r: Record, a: seq<Update>, b: seq<Update>)
    ensures Sends(r, a + b) == Sends(r, a) + Sends(r, b)
  {
  }

  class CursorCloudRunMonitor {
    var hasSender: bool
    var outbox: seq<Sent>  // what the reply sender has been given so far

    constructor ()
      ensures !hasSender && outbox == []
    {
      hasSender, outbox := false, [];
    }

    method SetReplySender(present: bool)
      modifies this
      ensures hasSender == present && outbox == old(outbox)
    {
      hasSender := present;
    }

    method SendUpdate(r: LifecycleRunRecord, u: Update)
      modifies this`outbox
      ensures outbox == old(outbox) + if hasSender then Sends(r.Snap(), [u]) else []
    {
      RenderIsNotBlank(u);
      if !hasSender || IsBlank(Render(u)) { return; }
      var useThread := Present(r.deliveryChannelId) && r.deliveryChannelId.value != Lifecycle.THREAD_CREATE_FAILED;
      var target := if useThread then r.deliveryChannelId else r.channelId;
      var messageId := if useThread then None else r.replyToMessageId;
      outbox := outbox + [Sent(r.agentId, target, messageId, u)];
    }

    method PollRunAgent(r: LifecycleRunRecord, a: PollAnswer, now: int) returns (threw: bool)
      modifies this`outbox, r
      ensures var polled := PollAgent(old(r.Snap()), a, now);
              && r.Snap() == polled.record && threw == polled.threw
              && outbox == old(outbox) + if hasSender then Sends(old(r.Snap()), polled.updates) else []
    {
      var previousStatus, previousPrUrl := r.status, r.prUrl;
      if a.agent.Threw? { return true; }
      r.ApplyAgentDetails(a.agent.value, now);
      if previousStatus != r.status {
        SendUpdate(r, StatusUpdate(r.status, r.branchName, r.agentUrl));
      }
      if previousPrUrl != r.prUrl && r.prUrl.Some? {
        SendUpdate(r, PullRequest(r.prUrl.value));
      }
      return false;
    }

    method PollRunConversation(r: LifecycleRunRecord, a: PollAnswer, now: int) returns (threw: bool)
      modifies this`outbox, r
      ensures var polled := PollConversation(old(r.Snap()), a, now);
              && r.Snap() == polled.record && threw == polled.threw
              && outbox == old(outbox) + if hasSender then Sends(old(r.Snap()), polled.updates) else []
    {
      if a.conversation.Threw? { return true; }
      var latest := LatestAssistant(a.conversation.value);
      if latest.Some? && r.lastAssistantMessageId != latest.value.id {
        r.RecordAssistantMessage(latest.value, now);
        SendUpdate(r, Feedback(latest.value.id, latest.value.text));
      }
      if IsTerminalStatus(r.status) && !r.terminalNotificationSent {
        SendUpdate(r, Terminal(r.status, r.prUrl, r.summary, r.lastAssistantMessage));
        r.MarkTerminalNotificationSent();
      }
      return false;
    }

    method PollRun(r: LifecycleRunRecord, a: PollAnswer, now: int) returns (threw: bool)
      modifies this`outbox, r
      ensures var polled := Poll(old(r.Snap()), a, now);
              && r.Snap() == polled.record && threw == polled.threw
              && outbox == old(outbox) + if hasSender then Sends(old(r.Snap()), polled.updates) else []
    {
      ghost var before := r.Snap();
      threw := PollRunAgent(r, a, now);
      if threw { return; }
      ghost var middle := r.Snap();
      threw := PollRunConversation(r, a, now);
      SendsAppend(before, PollAgent(before, a, now).updates, PollConversation(middle, a, now).updates);
    }

    /** Polling one record changes no other one. */
    method PollOne(records: map<string, LifecycleRunRecord>, key: string, a: PollAnswer, now: int) returns (threw: bool)
      requires KeyedByAgent(records) && key in records
      modifies this`outbox, records[key]
      ensures var polled := Poll(old(records[key].Snap()), a, now);
              && Snaps(records) == old(Snaps(records))[key := polled.record] && threw == polled.threw
              && outbox == old(outbox) + if hasSender then Sends(old(records[key].Snap()), polled.updates) else []
    {
      hide Poll, Sends, SessionKeys.RunKey;
      threw := PollRun(records[key], a, now);
    }

    /** One key of a tick: not a run record, already closed, or polled. */
    method Visit(records: map<string, LifecycleRunRecord>, key: string, answers: string -> PollAnswer, now: int)
      returns (threw: bool)
      requires KeyedByAgent(records)
      modifies this`outbox, records.Values
      ensures var t := TickOne(old(Snaps(records)), key, answers, now, hasSender);
              Snaps(records) == t.records && threw == t.threw && outbox == old(outbox) + t.sent
    {
      hide Poll, Sends, KeyedByAgent, Snaps;
      SnapsAt(records, key);
      if key !in records { return false; }
      var r := records[key];
      if IsTerminalStatus(r.status) && r.terminalNotificationSent { return false; }
      threw := PollOne(records, key, answers(r.agentId), now);
    }

    /** One tick over the run records of the store in the order its keys come. A remote failure ends the tick. */
    method Tick(records: map<string, LifecycleRunRecord>, order: seq<string>, answers: string -> PollAnswer, now: int)
      returns (threw: bool)
      requires KeyedByAgent(records)
      modifies this`outbox, records.Values
      ensures var t := TickAll(old(Snaps(records)), order, answers, now, hasSender);
              Snaps(records) == t.records && threw == t.threw && outbox == old(outbox) + t.sent
    {
      hide TickOne, KeyedByAgent, Snaps;
      ghost var before := Snaps(records);
      for i := 0 to |order|
        invariant var t := TickAll(before, order[..i], answers, now, hasSender);
                  Snaps(records) == t.records && !t.threw && outbox == old(outbox) + t.sent
      {
        assert order[..i + 1][..i] == order[..i];
        threw := Visit(records, order[i], answers, now);
        if threw {
          TickStops(before, order, i, answers, now, hasSender);
          return;
        }
      }
      assert order[..|order|] == order;
      return false;
    }
  }

  ghost predicate KeyedByAgent(records: map<string, LifecycleRunRecord>)
  {
    forall k :: k in records ==> k == SessionKeys.RunKey(records[k].agentId)
  }

  ghost function Snaps(records: map<string, LifecycleRunRecord>): map<string, Record>
    reads records.Values
  {
    map k | k in records :: records[k].Snap()
  }

  lemma SnapsAt(records: map<string, LifecycleRunRecord>, key: string)
    ensures key in Snaps(records) <==> key in records
    ensures key in records ==> Snaps(records)[key] == records[key].Snap()
  {
  }

  // ----- one tick as a function -----

  datatype Ticked = Ticked(records: map<string, Record>, sent: seq<Sent>, threw: bool)

  /** A closed record is skipped, any other one polled. */
  function TickOne(records: map<string, Record>, key: string, answers: string -> PollAnswer, now: int,
                   sender: bool): Ticked
  {
    if key !in records || records[key].Closed() then Ticked(records, [], false)
    else
      var polled := Poll(records[key], answers(records[key].agentId), now);
      Ticked(records[key := polled.record], if sender then Sends(records[key], polled.updates) else [], polled.threw)
  }

  /** The keys in order; the first failure leaves the later records for the next tick. */
  function TickAll(records: map<string, Record>, order: seq<string>, answers: string -> PollAnswer, now: int,
                   sender: bool): Ticked
  {
    if order == [] then Ticked(records, [], false)
    else
      var before := TickAll(records, order[..|order| - 1], answers, now, sender);
      if before.threw then before
      else
        var last := TickOne(before.records, order[|order| - 1], answers, now, sender);
        Ticked(last.records, before.sent + last.sent, last.threw)
  }

  lemma {:induction false} TickStops(records: map<string, Record>, order: seq<string>, i: nat,
                                     answers: string -> PollAnswer, now: int, sender: bool)
    requires i < |order| && TickAll(records, order[..i + 1], answers, now, sender).threw
    ensures TickAll(records, order, answers, now, sender) == TickAll(records, order[..i + 1], answers, now, sender)
    decreases |order|
  {
    var n := |order| - 1;
    if i == n {
      assert order[..i + 1] == order;
    } else {
      assert order[..n][..i + 1] == order[..i + 1];
      TickStops(records, order[..n], i, answers, now, sender);
    }
  }
}
