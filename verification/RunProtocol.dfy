/** What the monitor's log looks like over any sequence of ticks: one terminal message at most and nothing after it,
    and every relayed change exactly once. */
module RunProtocol {
  import opened Text
  import opened RunMonitor
  import SessionKeys

  // ----- the life of one record -----

  /** One visit of the monitor: the remote answer, the time, and whether a sender is set. */
  datatype Visit = Visit(answer: PollAnswer, now: int, sender: bool)

  datatype Lived = Lived(record: Record, updates: seq<Update>)

  function Visited(r: Record, v: Visit): Polled
  {
    if r.Closed() then Polled(r, [], false) else Poll(r, v.answer, v.now)
  }

  /** The record and the messages sent for it after a sequence of visits. */
  function Life(r: Record, vs: seq<Visit>): Lived
  {
    if vs == [] then Lived(r, [])
    else
      var before, v := Life(r, vs[..|vs| - 1]), vs[|vs| - 1];
      var polled := Visited(before.record, v);
      Lived(polled.record, before.updates + if v.sender then polled.updates else [])
  }

  lemma {:induction false} LifeAppend(r: Record, a: seq<Visit>, b: seq<Visit>)
    ensures var first := Life(r, a);
            var second := Life(first.record, b);
            Life(r, a + b) == Lived(second.record, first.updates + second.updates)
    decreases |b|
  {
    hide Visited;
    if b == [] {
      assert a + b == a;
    } else {
      var n := |b| - 1;
      assert (a + b)[..|a + b| - 1] == a + b[..n];
      LifeAppend(r, a, b[..n]);
    }
  }

  // ----- the terminal protocol -----

  /** A terminal message, if any, is the last one; so there is at most one. */
  predicate TerminalOnlyLast(us: seq<Update>)
  {
    forall i :: 0 <= i < |us| - 1 ==> !us[i].Terminal?
  }

  predicate EndsTerminal(us: seq<Update>)
  {
    us != [] && us[|us| - 1].Terminal?
  }

  /** sent implies terminal. */
  predicate Sane(r: Record)
  {
    r.terminalSent ==> r.IsTerminal()
  }

  /** A poll sends its terminal message last, and exactly when it leaves the record closed. */
  lemma PollShape(r: Record, a: PollAnswer, now: int)
    requires !r.terminalSent
    ensures var p := Poll(r, a, now);
            && TerminalOnlyLast(p.updates) && (EndsTerminal(p.updates) <==> p.record.terminalSent)
            && Sane(p.record) && p.record.agentId == r.agentId
            && (!p.threw ==> (p.record.terminalSent <==> p.record.IsTerminal()))
            && (p.threw ==> !p.record.terminalSent)
  {
  }

  /** completedAt, once written, is never written again. */
  lemma PollKeepsCompletedAt(r: Record, a: PollAnswer, now: int)
    ensures r.completedAt.Some? ==> Poll(r, a, now).record.completedAt == r.completedAt
  {
  }

  /** A tick that fetches a terminal status and the conversation leaves the notification sent. */
  lemma TerminalPollCloses(r: Record, a: PollAnswer, now: int)
    requires !r.terminalSent
    requires a.agent.Got? && a.agent.value.Some? && IsTerminalStatus(a.agent.value.value.status) && a.conversation.Got?
    ensures Poll(r, a, now).record.Closed() && Poll(r, a, now).record.completedAt.Some?
    ensures EndsTerminal(Poll(r, a, now).updates)
  {
  }

  /** Every message says what the remote side answered in this very poll: the changed status on the run's own branch,
      the new pull request, the latest assistant message, and at the end the final status, pull request and summary
      with the last message known. */
  lemma MessagesAreCurrent(r: Record, a: PollAnswer, now: int, i: nat)
    ensures var us := Poll(r, a, now).updates;
            i < |us| ==>
              var d := AgentOf(a);
              match us[i]
              case StatusUpdate(s, b, u) =>
                d.Some? && s == d.value.status && s != r.status && b == r.branchName && u == r.agentUrl
              case PullRequest(url) => d.Some? && Some(url) == d.value.prUrl && Some(url) != r.prUrl
              case Feedback(id, text) =>
                LatestOf(a).Some? && id == LatestOf(a).value.id && text == LatestOf(a).value.text
              case Terminal(s, url, summary, last) =>
                && IsTerminalStatus(s)
                && (if d.Some? then s == d.value.status && url == d.value.prUrl && summary == d.value.summary
                    else s == r.status && url == r.prUrl && summary == r.summary)
                && last == (if LatestOf(a).Some? && LatestOf(a).value.id != r.lastAssistantMessageId
                            then LatestOf(a).value.text else r.lastAssistantMessage)
  {
    hide LatestOf;
    if a.agent.Got? && a.conversation.Got? {
      LatestOfIsLatest(a);
    }
  }

  function Rank(u: Update): nat
  {
    match u
    case StatusUpdate(_, _, _) => 0
    case PullRequest(_) => 1
    case Feedback(_, _) => 2
    case Terminal(_, _, _, _) => 3
  }

  /** A poll sends status, pull request, feedback and end in this order, each at most once. */
  lemma MessagesAreOrdered(r: Record, a: PollAnswer, now: int)
    ensures var us := Poll(r, a, now).updates; forall i, j :: 0 <= i < j < |us| ==> Rank(us[i]) < Rank(us[j])
  {
  }

  /** completedAt is the time of the poll that first sees a terminal status. */
  lemma CompletedAtIsFirstSeen(r: Record, a: PollAnswer, now: int)
    requires r.completedAt == None
    ensures var seen := a.agent.Got? && a.agent.value.Some? && IsTerminalStatus(a.agent.value.value.status);
            Poll(r, a, now).record.completedAt == if seen then Some(now) else None
  {
  }

  lemma {:induction false} ClosedIsFrozen(r: Record, vs: seq<Visit>)
    requires r.Closed()
    ensures Life(r, vs) == Lived(r, [])
  {
    hide Poll;
    if vs != [] {
      ClosedIsFrozen(r, vs[..|vs| - 1]);
    }
  }

  /** Over any visits: the record is sane, a terminal message is the last message and closes the record, and
      while the record is open none has been sent. */
  lemma {:induction false} TerminalProtocol(r: Record, vs: seq<Visit>)
    requires !r.terminalSent
    ensures var l := Life(r, vs);
            && Sane(l.record) && l.record.agentId == r.agentId
            && TerminalOnlyLast(l.updates) && (EndsTerminal(l.updates) ==> l.record.Closed())
            && (r.completedAt.Some? ==> l.record.completedAt == r.completedAt)
  {
    hide Poll;
    if vs != [] {
      var n := |vs| - 1;
      var before, v := Life(r, vs[..n]), vs[n];
      TerminalProtocol(r, vs[..n]);
      if !before.record.Closed() {
        PollShape(before.record, v.answer, v.now);
        PollKeepsCompletedAt(before.record, v.answer, v.now);
      }
    }
  }

  /** After the terminal message nothing is sent and nothing changes, whatever the remote side answers. */
  lemma NothingAfterTerminal(r: Record, vs: seq<Visit>, more: seq<Visit>)
    requires !r.terminalSent && EndsTerminal(Life(r, vs).updates)
    ensures Life(r, vs + more) == Life(r, vs)
  {
    hide Life;
    TerminalProtocol(r, vs);
    ClosedIsFrozen(Life(r, vs).record, more);
    LifeAppend(r, vs, more);
  }

  predicate WithSender(vs: seq<Visit>)
  {
    forall i :: 0 <= i < |vs| ==> vs[i].sender
  }

  /** With a sender throughout, a record is marked as announced exactly when its terminal message has been sent. */
  lemma {:induction false} MarkedMeansSent(r: Record, vs: seq<Visit>)
    requires !r.terminalSent && WithSender(vs)
    ensures Life(r, vs).record.terminalSent <==> EndsTerminal(Life(r, vs).updates)
  {
    hide Poll;
    if vs != [] {
      var n := |vs| - 1;
      var before, v := Life(r, vs[..n]), vs[n];
      MarkedMeansSent(r, vs[..n]);
      TerminalProtocol(r, vs[..n]);
      if !before.record.Closed() {
        PollShape(before.record, v.answer, v.now);
      }
    }
  }

  /** The visit after which the record is marked as announced. */
  predicate ClosesAt(r: Record, vs: seq<Visit>, n: nat)
    requires n < |vs|
  {
    !Life(r, vs[..n]).record.terminalSent && Life(r, vs[..n + 1]).record.terminalSent
  }

  lemma LifeNext(r: Record, vs: seq<Visit>, n: nat)
    requires n < |vs|
    ensures var before := Life(r, vs[..n]);
            var p := Visited(before.record, vs[n]);
            Life(r, vs[..n + 1]) == Lived(p.record, before.updates + if vs[n].sender then p.updates else [])
  {
    assert vs[..n + 1][..n] == vs[..n];
  }

  /** Whether the end of a run is ever announced is decided by the visit that closes its record: it is announced
      exactly when a sender is set at that visit, and no later visit can make up for it. */
  lemma ClosingVisitDecides(r: Record, vs: seq<Visit>, n: nat)
    requires !r.terminalSent && n < |vs| && ClosesAt(r, vs, n)
    ensures EndsTerminal(Life(r, vs).updates) <==> vs[n].sender
  {
    hide Poll, Life, IsTerminalStatus;
    var before, v, after := Life(r, vs[..n]), vs[n], Life(r, vs[..n + 1]);
    LifeNext(r, vs, n);
    TerminalProtocol(r, vs[..n]);
    PollShape(before.record, v.answer, v.now);
    assert before.updates + [] == before.updates;
    TerminalProtocol(r, vs[..n + 1]);
    ClosedIsFrozen(after.record, vs[n + 1..]);
    LifeAppend(r, vs[..n + 1], vs[n + 1..]);
    assert vs == vs[..n + 1] + vs[n + 1..] && after.updates + [] == after.updates;
  }

  /** A marked record was closed by some visit. */
  lemma {:induction false} ClosingVisit(r: Record, vs: seq<Visit>) returns (n: nat)
    requires !r.terminalSent && Life(r, vs).record.terminalSent
    ensures n < |vs| && ClosesAt(r, vs, n)
  {
    hide Poll;
    n := |vs| - 1;
    assert vs[..n + 1] == vs;
    if Life(r, vs[..n]).record.terminalSent {
      n := ClosingVisit(r, vs[..n]);
      assert vs[..|vs| - 1][..n] == vs[..n] && vs[..|vs| - 1][..n + 1] == vs[..n + 1];
    }
  }

  /** The exact condition, over any visits: a terminal message is sent if and only if some visit closes the record
      while a sender is set. */
  lemma AnnouncedExactlyWhen(r: Record, vs: seq<Visit>)
    requires !r.terminalSent
    ensures EndsTerminal(Life(r, vs).updates) <==> exists n :: 0 <= n < |vs| && ClosesAt(r, vs, n) && vs[n].sender
  {
    hide Life, ClosesAt;
    TerminalProtocol(r, vs);
    if Life(r, vs).record.terminalSent {
      var n := ClosingVisit(r, vs);
      ClosingVisitDecides(r, vs, n);
    }
    forall n | 0 <= n < |vs| && ClosesAt(r, vs, n) && vs[n].sender ensures EndsTerminal(Life(r, vs).updates) {
      ClosingVisitDecides(r, vs, n);
    }
  }

  /** A run that ends while no sender is set: marked as announced, and nothing was sent. */
  lemma SilentEnd()
    ensures var r := Launched("a", None, None, None, None, None, Some("RUNNING"));
            var finished := PollAnswer(Got(Some(Details(Some("FINISHED"), None, None))), Got([]));
            var l := Life(r, [Visit(finished, 0, false)]);
            l.record.Closed() && l.record.terminalSent && l.updates == []
  {
    var r := Launched("a", None, None, None, None, None, Some("RUNNING"));
    var finished := PollAnswer(Got(Some(Details(Some("FINISHED"), None, None))), Got([]));
    LifeOfOne(r, Visit(finished, 0, false));
    TerminalPollCloses(r, finished, 0);
  }

  lemma LifeOfOne(r: Record, v: Visit)
    ensures Life(r, [v]) == Lived(Visited(r, v).record, if v.sender then Visited(r, v).updates else [])
  {
    assert [v][..0] == [];
  }

  /** completedAt is written at most once over any visits. */
  lemma CompletedAtWrittenOnce(r: Record, vs: seq<Visit>, more: seq<Visit>)
    requires !r.terminalSent && Life(r, vs).record.completedAt.Some?
    ensures Life(r, vs + more).record.completedAt == Life(r, vs).record.completedAt
  {
    hide Life;
    LifeAppend(r, vs, more);
    TerminalProtocol(r, vs);
    if Life(r, vs).record.terminalSent {
      ClosedIsFrozen(Life(r, vs).record, more);
    } else {
      TerminalProtocol(Life(r, vs).record, more);
    }
  }

  // ----- logs are destuttered inputs -----

  function Destutter<T(==)>(previous: T, xs: seq<T>): seq<T>
  {
    if xs == [] then []
    else
      var before := xs[..|xs| - 1];
      var last := xs[|xs| - 1];
      Destutter(previous, before) + if last == LastOf(previous, before) then [] else [last]
  }

  function LastOf<T>(previous: T, xs: seq<T>): T
  {
    if xs == [] then previous else xs[|xs| - 1]
  }

  /** The values that are there. */
  function Values<T>(xs: seq<Option<T>>): seq<T>
  {
    if xs == [] then []
    else Values(xs[..|xs| - 1]) + if xs[|xs| - 1].Some? then [xs[|xs| - 1].value] else []
  }

  lemma ValuesSnoc<T>(xs: seq<Option<T>>, x: Option<T>)
    ensures Values(xs + [x]) == Values(xs) + if x.Some? then [x.value] else []
  {
    assert (xs + [x])[..|xs + [x]| - 1] == xs;
  }

  lemma DestutterSnoc<T>(previous: T, xs: seq<T>, x: T)
    ensures Destutter(previous, xs + [x]) == Destutter(previous, xs) + if x == LastOf(previous, xs) then [] else [x]
  {
    assert (xs + [x])[..|xs + [x]| - 1] == xs;
  }

  /** The agent details that reach an open record, visit by visit. */
  function DetailsSeen(r: Record, vs: seq<Visit>): seq<Details>
  {
    if vs == [] then []
    else
      var before, a := DetailsSeen(r, vs[..|vs| - 1]), vs[|vs| - 1].answer;
      if Life(r, vs[..|vs| - 1]).record.Closed() || AgentOf(a).None? then before else before + [AgentOf(a).value]
  }

  /** The latest assistant messages that reach an open record. */
  ghost function MessagesSeen(r: Record, vs: seq<Visit>): seq<Message>
  {
    if vs == [] then []
    else
      var before, a := MessagesSeen(r, vs[..|vs| - 1]), vs[|vs| - 1].answer;
      if Life(r, vs[..|vs| - 1]).record.Closed() || LatestOf(a).None? then before else before + [LatestOf(a).value]
  }

  function AgentOf(a: PollAnswer): Option<Details>
  {
    if a.agent.Got? then a.agent.value else None
  }

  /** The conversation is fetched only after the agent answered. */
  ghost function LatestOf(a: PollAnswer): Option<Message>
  {
    if a.agent.Got? && a.conversation.Got? && exists p: nat :: LastAssistantAt(a.conversation.value, p) then
      var p: nat :| LastAssistantAt(a.conversation.value, p);
      Some(a.conversation.value[p])
    else None
  }

  lemma LatestNeedsBoth(a: PollAnswer)
    ensures !a.agent.Got? || !a.conversation.Got? ==> LatestOf(a) == None
    ensures a.agent.Got? && a.conversation.Got? ==> LatestOf(a) == LatestAssistant(a.conversation.value)
  {
    if a.agent.Got? && a.conversation.Got? {
      LatestOfIsLatest(a);
    }
  }

  lemma LatestOfIsLatest(a: PollAnswer)
    requires a.agent.Got? && a.conversation.Got?
    ensures LatestOf(a) == LatestAssistant(a.conversation.value)
  {
    LatestAssistantIsLast(a.conversation.value);
    if LatestOf(a).Some? {
      var p: nat :| LastAssistantAt(a.conversation.value, p) && LatestOf(a).value == a.conversation.value[p];
    }
  }

  function StatusesOf(ds: seq<Details>): seq<Option<string>>
  {
    seq(|ds|, i requires 0 <= i < |ds| => ds[i].status)
  }

  function UrlsOf(ds: seq<Details>): seq<Option<string>>
  {
    seq(|ds|, i requires 0 <= i < |ds| => ds[i].prUrl)
  }

  function IdsOf(ms: seq<Message>): seq<Option<string>>
  {
    seq(|ms|, i requires 0 <= i < |ms| => ms[i].id)
  }

  // What a log announces, by kind of message.

  function Statuses(us: seq<Update>): seq<Option<string>>
  {
    if us == [] then [] else Statuses(us[..|us| - 1]) + if us[|us| - 1].StatusUpdate? then [us[|us| - 1].status] else []
  }

  function Urls(us: seq<Update>): seq<string>
  {
    if us == [] then [] else Urls(us[..|us| - 1]) + if us[|us| - 1].PullRequest? then [us[|us| - 1].url] else []
  }

  function FeedbackIds(us: seq<Update>): seq<Option<string>>
  {
    if us == [] then [] else FeedbackIds(us[..|us| - 1]) + if us[|us| - 1].Feedback? then [us[|us| - 1].id] else []
  }

  lemma {:induction false} KindsAppend(a: seq<Update>, b: seq<Update>)
    ensures Statuses(a + b) == Statuses(a) + Statuses(b)
    ensures Urls(a + b) == Urls(a) + Urls(b)
    ensures FeedbackIds(a + b) == FeedbackIds(a) + FeedbackIds(b)
    decreases |b|
  {
    if b == [] {
      assert a + b == a;
    } else {
      assert (a + b)[..|a + b| - 1] == a + b[..|b| - 1];
      KindsAppend(a, b[..|b| - 1]);
    }
  }

  /** What a list of updates announces when the record changed from r to t. */
  predicate Announces(us: seq<Update>, r: Record, t: Record)
  {
    && Statuses(us) == (if t.status != r.status then [t.status] else [])
    && Urls(us) == (if t.prUrl != r.prUrl && t.prUrl.Some? then [t.prUrl.value] else [])
    && FeedbackIds(us)
         == (if t.lastAssistantMessageId != r.lastAssistantMessageId then [t.lastAssistantMessageId] else [])
  }

  lemma AgentAnnounces(r: Record, a: PollAnswer, now: int)
    ensures var p := PollAgent(r, a, now);
            && Announces(p.updates, r, p.record) && p.record.lastAssistantMessageId == r.lastAssistantMessageId
            && p.threw == a.agent.Threw?
            && (if a.agent.Got? && a.agent.value.Some?
                then p.record.status == a.agent.value.value.status && p.record.prUrl == a.agent.value.value.prUrl
                else p.record == r)
  {
    if a.agent.Got? {
      var t := Applied(r, a.agent.value, now);
      KindsAppend(if t.status != r.status then [StatusOf(t)] else [],
                  if t.prUrl != r.prUrl && t.prUrl.Some? then [PullRequest(t.prUrl.value)] else []);
    }
  }

  lemma ConversationAnnounces(r: Record, a: PollAnswer, now: int)
    ensures var p := PollConversation(r, a, now);
            && Announces(p.updates, r, p.record) && p.record.status == r.status && p.record.prUrl == r.prUrl
            && (if a.conversation.Got? && LatestAssistant(a.conversation.value).Some?
                then p.record.lastAssistantMessageId == LatestAssistant(a.conversation.value).value.id
                else p.record.lastAssistantMessageId == r.lastAssistantMessageId)
  {
    if a.conversation.Got? {
      var latest := LatestAssistant(a.conversation.value);
      var isNew := latest.Some? && latest.value.id != r.lastAssistantMessageId;
      var t := if isNew then Recorded(r, latest.value, now) else r;
      KindsAppend(if isNew then [Feedback(latest.value.id, latest.value.text)] else [],
                  if t.IsTerminal() && !t.terminalSent then [TerminalOf(t)] else []);
    }
  }

  /** One poll announces each change once, and remembers what it announced. */
  lemma PollAnnounces(r: Record, a: PollAnswer, now: int)
    ensures var p := Poll(r, a, now);
            && Announces(p.updates, r, p.record)
            && p.record.status == (if AgentOf(a).Some? then AgentOf(a).value.status else r.status)
            && p.record.prUrl == (if AgentOf(a).Some? then AgentOf(a).value.prUrl else r.prUrl)
            && p.record.lastAssistantMessageId
                 == (if LatestOf(a).Some? then LatestOf(a).value.id else r.lastAssistantMessageId)
  {
    hide PollAgent, PollConversation, LatestOf;
    AgentAnnounces(r, a, now);
    var first := PollAgent(r, a, now);
    LatestNeedsBoth(a);
    if !first.threw {
      ConversationAnnounces(first.record, a, now);
      KindsAppend(first.updates, PollConversation(first.record, a, now).updates);
    }
  }

  /** What the last visit adds to the log of each kind. */
  lemma VisitAnnounces(r: Record, vs: seq<Visit>)
    requires vs != [] && vs[|vs| - 1].sender
    ensures var before, after := Life(r, vs[..|vs| - 1]), Life(r, vs);
            var a := vs[|vs| - 1].answer;
            var d := if before.record.Closed() then None else AgentOf(a);
            var m := if before.record.Closed() then None else LatestOf(a);
            && after.record.status == (if d.Some? then d.value.status else before.record.status)
            && after.record.prUrl == (if d.Some? then d.value.prUrl else before.record.prUrl)
            && after.record.lastAssistantMessageId
                 == (if m.Some? then m.value.id else before.record.lastAssistantMessageId)
            && Statuses(after.updates) == Statuses(before.updates)
                 + (if after.record.status != before.record.status then [after.record.status] else [])
            && Urls(after.updates) == Urls(before.updates)
                 + (if after.record.prUrl != before.record.prUrl && after.record.prUrl.Some?
                    then [after.record.prUrl.value] else [])
            && FeedbackIds(after.updates) == FeedbackIds(before.updates)
                 + (if after.record.lastAssistantMessageId != before.record.lastAssistantMessageId
                    then [after.record.lastAssistantMessageId] else [])
  {
    hide Poll, AgentOf, LatestOf;
    var before, v := Life(r, vs[..|vs| - 1]), vs[|vs| - 1];
    PollAnnounces(before.record, v.answer, v.now);
    KindsAppend(before.updates, Visited(before.record, v).updates);
  }

  lemma StatusesSnoc(previous: Option<string>, ds: seq<Details>, d: Details)
    ensures LastOf(previous, StatusesOf(ds + [d])) == d.status
    ensures Destutter(previous, StatusesOf(ds + [d])) == Destutter(previous, StatusesOf(ds))
              + if d.status == LastOf(previous, StatusesOf(ds)) then [] else [d.status]
  {
    assert StatusesOf(ds + [d]) == StatusesOf(ds) + [d.status];
    DestutterSnoc(previous, StatusesOf(ds), d.status);
  }

  lemma UrlsSnoc(previous: Option<string>, ds: seq<Details>, d: Details)
    ensures LastOf(previous, UrlsOf(ds + [d])) == d.prUrl
    ensures Values(Destutter(previous, UrlsOf(ds + [d]))) == Values(Destutter(previous, UrlsOf(ds)))
              + if d.prUrl == LastOf(previous, UrlsOf(ds)) || d.prUrl.None? then [] else [d.prUrl.value]
  {
    assert UrlsOf(ds + [d]) == UrlsOf(ds) + [d.prUrl];
    DestutterSnoc(previous, UrlsOf(ds), d.prUrl);
    ValuesSnoc(Destutter(previous, UrlsOf(ds)), d.prUrl);
    assert Destutter(previous, UrlsOf(ds)) + [] == Destutter(previous, UrlsOf(ds));
  }

  lemma IdsSnoc(previous: Option<string>, ms: seq<Message>, m: Message)
    ensures LastOf(previous, IdsOf(ms + [m])) == m.id
    ensures Destutter(previous, IdsOf(ms + [m])) == Destutter(previous, IdsOf(ms))
              + if m.id == LastOf(previous, IdsOf(ms)) then [] else [m.id]
  {
    assert IdsOf(ms + [m]) == IdsOf(ms) + [m.id];
    DestutterSnoc(previous, IdsOf(ms), m.id);
  }

  /** With a sender set, the announced statuses are the polled statuses without consecutive repeats, starting from
      the launch status. "Polled" means: answered while the record was open. */
  lemma {:induction false} StatusLog(r: Record, vs: seq<Visit>)
    requires WithSender(vs)
    ensures var xs := StatusesOf(DetailsSeen(r, vs));
            && Statuses(Life(r, vs).updates) == Destutter(r.status, xs)
            && Life(r, vs).record.status == LastOf(r.status, xs)
  {
    if vs != [] {
      hide Life, AgentOf, Statuses, Urls, FeedbackIds, Destutter, StatusesOf, LastOf;
      var prefix, a := vs[..|vs| - 1], vs[|vs| - 1].answer;
      StatusLog(r, prefix);
      VisitAnnounces(r, vs);
      if !Life(r, prefix).record.Closed() && AgentOf(a).Some? {
        StatusesSnoc(r.status, DetailsSeen(r, prefix), AgentOf(a).value);
      }
    }
  }

  /** Pull request messages are exactly the changes of the URL to a present one. */
  lemma {:induction false} PullRequestLog(r: Record, vs: seq<Visit>)
    requires WithSender(vs)
    ensures var xs := UrlsOf(DetailsSeen(r, vs));
            && Urls(Life(r, vs).updates) == Values(Destutter(r.prUrl, xs))
            && Life(r, vs).record.prUrl == LastOf(r.prUrl, xs)
  {
    if vs != [] {
      hide Life, AgentOf, Statuses, Urls, FeedbackIds, Destutter, Values, UrlsOf, LastOf;
      var prefix, a := vs[..|vs| - 1], vs[|vs| - 1].answer;
      PullRequestLog(r, prefix);
      VisitAnnounces(r, vs);
      if !Life(r, prefix).record.Closed() && AgentOf(a).Some? {
        UrlsSnoc(r.prUrl, DetailsSeen(r, prefix), AgentOf(a).value);
      }
    }
  }

  /** Relayed feedback is the latest assistant messages without consecutive repeats. */
  lemma {:induction false} FeedbackLog(r: Record, vs: seq<Visit>)
    requires WithSender(vs)
    ensures var xs := IdsOf(MessagesSeen(r, vs));
            && FeedbackIds(Life(r, vs).updates) == Destutter(r.lastAssistantMessageId, xs)
            && Life(r, vs).record.lastAssistantMessageId == LastOf(r.lastAssistantMessageId, xs)
  {
    if vs != [] {
      hide Life, LatestOf, Statuses, Urls, FeedbackIds, Destutter, IdsOf, LastOf;
      var prefix, a := vs[..|vs| - 1], vs[|vs| - 1].answer;
      FeedbackLog(r, prefix);
      VisitAnnounces(r, vs);
      if !Life(r, prefix).record.Closed() && LatestOf(a).Some? {
        IdsSnoc(r.lastAssistantMessageId, MessagesSeen(r, prefix), LatestOf(a).value);
      }
    }
  }

  // ----- launches and ticks over the whole store -----

  /** One tick: the order in which the store's keys come, the remote answers by agent, the time, the sender. */
  datatype TickInput = TickInput(order: seq<string>, answers: string -> PollAnswer, now: int, sender: bool)

  /** What happens to the run records: a launch stores one, a tick polls those that are there. */
  datatype Moment = Launch(record: Record) | Tick(input: TickInput)

  datatype History = History(records: map<string, Record>, sent: seq<Sent>)

  function AfterTick(records: map<string, Record>, t: TickInput): Ticked
  {
    TickAll(records, t.order, t.answers, t.now, t.sender)
  }

  /** The run records and the monitor's log after a sequence of launches and ticks. */
  function Runs(ms: seq<Moment>): History
  {
    if ms == [] then History(map[], [])
    else
      var before := Runs(ms[..|ms| - 1]);
      match ms[|ms| - 1]
      case Launch(r) => History(before.records[SessionKeys.RunKey(r.agentId) := r], before.sent)
      case Tick(t) => History(AfterTick(before.records, t).records, before.sent + AfterTick(before.records, t).sent)
  }

  /** The messages of one run. */
  function UpdatesOf(sent: seq<Sent>, agentId: string): seq<Update>
  {
    if sent == [] then []
    else
      var last := sent[|sent| - 1];
      UpdatesOf(sent[..|sent| - 1], agentId) + if last.run == agentId then [last.update] else []
  }

  predicate Keyed(records: map<string, Record>)
  {
    forall k :: k in records ==> k == SessionKeys.RunKey(records[k].agentId)
  }

  /** The visit that one key of a tick is for a run: one if it is the run's key. */
  function KeyVisits(key: string, t: TickInput, agentId: string): seq<Visit>
  {
    if key == SessionKeys.RunKey(agentId) then [Visit(t.answers(agentId), t.now, t.sender)] else []
  }

  /** The visits of one run during a tick: one each time its key comes before a failure. */
  function TickVisits(records: map<string, Record>, t: TickInput, agentId: string): seq<Visit>
    decreases |t.order|
  {
    if t.order == [] then []
    else
      var before := t.(order := t.order[..|t.order| - 1]);
      TickVisits(records, before, agentId)
      + if AfterTick(records, before).threw then [] else KeyVisits(t.order[|t.order| - 1], t, agentId)
  }

  /** The visits of one run over a whole history: those since its record is there. */
  function VisitsOf(ms: seq<Moment>, agentId: string): seq<Visit>
  {
    if ms == [] then []
    else
      var prefix, last := ms[..|ms| - 1], ms[|ms| - 1];
      VisitsOf(prefix, agentId)
      + if last.Tick? && SessionKeys.RunKey(agentId) in Runs(prefix).records
        then TickVisits(Runs(prefix).records, last.input, agentId) else []
  }

  /** The run launched at moment i is launched once: the remote side gives its id to no other run. */
  predicate LaunchedOnce(ms: seq<Moment>, i: nat)
  {
    && i < |ms| && ms[i].Launch? && !ms[i].record.terminalSent
    && forall j :: 0 <= j < |ms| && j != i && ms[j].Launch? ==> ms[j].record.agentId != ms[i].record.agentId
  }

  /** A sender is set at every tick after moment i. */
  predicate SenderSince(ms: seq<Moment>, i: nat)
  {
    forall j :: i < j < |ms| && ms[j].Tick? ==> ms[j].input.sender
  }

  lemma {:induction false} UpdatesOfAppend(a: seq<Sent>, b: seq<Sent>, agentId: string)
    ensures UpdatesOf(a + b, agentId) == UpdatesOf(a, agentId) + UpdatesOf(b, agentId)
    decreases |b|
  {
    if b == [] {
      assert a + b == a;
    } else {
      assert (a + b)[..|a + b| - 1] == a + b[..|b| - 1];
      UpdatesOfAppend(a, b[..|b| - 1], agentId);
    }
  }

  lemma {:induction false} UpdatesOfSends(r: Record, us: seq<Update>, agentId: string)
    ensures UpdatesOf(Sends(r, us), agentId) == if r.agentId == agentId then us else []
  {
    if us != [] {
      assert Sends(r, us)[..|us| - 1] == Sends(r, us[..|us| - 1]);
      UpdatesOfSends(r, us[..|us| - 1], agentId);
    }
  }

  lemma PollKeepsAgent(r: Record, a: PollAnswer, now: int)
    ensures Poll(r, a, now).record.agentId == r.agentId
  {
  }

  lemma KeysDiffer(a: string, b: string)
    ensures SessionKeys.RunKey(a) == SessionKeys.RunKey(b) <==> a == b
  {
    assert SessionKeys.RunKey(a)[11..] == a && SessionKeys.RunKey(b)[11..] == b;
  }

  /** What happens to the store and the log is, for one run, the visits vs: its record lives on through them, and the
      messages sent for it are those of that life. Without a record nothing is sent. */
  predicate Projects(before: map<string, Record>, after: map<string, Record>, sent: seq<Sent>, vs: seq<Visit>,
                     a: string)
  {
    var k := SessionKeys.RunKey(a);
    && Keyed(after) && after.Keys == before.Keys
    && if k in before then Life(before[k], vs) == Lived(after[k], UpdatesOf(sent, a)) else UpdatesOf(sent, a) == []
  }

  lemma NothingProjects(records: map<string, Record>, a: string)
    requires Keyed(records)
    ensures Projects(records, records, [], [], a)
  {
  }

  /** One key of a tick is one visit of that key's record and leaves the other records alone. */
  lemma TickOneProjects(records: map<string, Record>, key: string, t: TickInput, a: string)
    requires Keyed(records)
    ensures var after := TickOne(records, key, t.answers, t.now, t.sender);
            Projects(records, after.records, after.sent, KeyVisits(key, t, a), a)
  {
    hide Poll, SessionKeys.RunKey, Life, IsTerminalStatus, UpdatesOf, Sends;
    var v := Visit(t.answers(a), t.now, t.sender);
    NothingProjects(records, a);
    NoVisit(records, a);
    if key in records {
      KeysDiffer(records[key].agentId, a);
      LifeOfOne(records[key], v);
      if !records[key].Closed() {
        var answer := t.answers(records[key].agentId);
        PollKeepsAgent(records[key], answer, t.now);
        UpdatesOfSends(records[key], Poll(records[key], answer, t.now).updates, a);
      }
    }
  }

  lemma NoVisit(records: map<string, Record>, a: string)
    ensures UpdatesOf([], a) == [] && forall r :: Life(r, []) == Lived(r, [])
  {
  }

  lemma ProjectsAppend(a: map<string, Record>, b: map<string, Record>, c: map<string, Record>, sent: seq<Sent>,
                       more: seq<Sent>, vs: seq<Visit>, ws: seq<Visit>, agentId: string)
    requires Projects(a, b, sent, vs, agentId) && Projects(b, c, more, ws, agentId)
    ensures Projects(a, c, sent + more, vs + ws, agentId)
  {
    hide Life, SessionKeys.RunKey, UpdatesOf, Keyed;
    UpdatesOfAppend(sent, more, agentId);
    if SessionKeys.RunKey(agentId) in a {
      LifeAppend(a[SessionKeys.RunKey(agentId)], vs, ws);
    }
  }

  lemma {:induction false} TickProjects(records: map<string, Record>, t: TickInput, a: string)
    requires Keyed(records)
    ensures var after := AfterTick(records, t);
            Projects(records, after.records, after.sent, TickVisits(records, t, a), a)
    decreases |t.order|
  {
    hide TickOne, Projects, KeyVisits, Keyed;
    if t.order == [] {
      NothingProjects(records, a);
    } else {
      var prefix, key := t.(order := t.order[..|t.order| - 1]), t.order[|t.order| - 1];
      TickProjects(records, prefix, a);
      var before := AfterTick(records, prefix);
      if before.threw {
        assert TickVisits(records, prefix, a) + [] == TickVisits(records, prefix, a);
      } else {
        var last := TickOne(before.records, key, t.answers, t.now, t.sender);
        ProjectsIsKeyed(records, before, TickVisits(records, prefix, a), a);
        TickOneProjects(before.records, key, t, a);
        ProjectsAppend(records, before.records, last.records, before.sent, last.sent,
                       TickVisits(records, prefix, a), KeyVisits(key, t, a), a);
      }
    }
  }

  lemma ProjectsIsKeyed(records: map<string, Record>, after: Ticked, vs: seq<Visit>, a: string)
    requires Projects(records, after.records, after.sent, vs, a)
    ensures Keyed(after.records)
  {
  }

  /** Before its launch a run has no record, no visits and no messages. */
  lemma {:induction false} NotYetLaunched(ms: seq<Moment>, a: string)
    requires forall j :: 0 <= j < |ms| && ms[j].Launch? ==> ms[j].record.agentId != a
    ensures SessionKeys.RunKey(a) !in Runs(ms).records && Keyed(Runs(ms).records)
    ensures VisitsOf(ms, a) == [] && UpdatesOf(Runs(ms).sent, a) == []
  {
    hide SessionKeys.RunKey, AfterTick, TickVisits;
    if ms != [] {
      var before, last := Runs(ms[..|ms| - 1]), ms[|ms| - 1];
      NotYetLaunched(ms[..|ms| - 1], a);
      if last.Launch? {
        KeysDiffer(last.record.agentId, a);
      } else {
        TickProjects(before.records, last.input, a);
        UpdatesOfAppend(before.sent, AfterTick(before.records, last.input).sent, a);
      }
    }
  }

  /** Launches and ticks over any set of runs are, for each run, a life: a failure of one run's remote side can keep
      others from being visited but never mixes their records or messages. */
  lemma {:induction false} RunsAreLives(ms: seq<Moment>, i: nat)
    requires LaunchedOnce(ms, i)
    ensures var r, h := ms[i].record, Runs(ms);
            && Keyed(h.records) && SessionKeys.RunKey(r.agentId) in h.records
            && Life(r, VisitsOf(ms, r.agentId))
                 == Lived(h.records[SessionKeys.RunKey(r.agentId)], UpdatesOf(h.sent, r.agentId))
  {
    hide SessionKeys.RunKey, AfterTick, TickVisits, Life, UpdatesOf;
    var r, n := ms[i].record, |ms| - 1;
    var a, prefix, last := r.agentId, ms[..n], ms[n];
    if i == n {
      NotYetLaunched(prefix, a);
      NoVisit(map[], a);
    } else {
      assert prefix[i] == ms[i];
      RunsAreLives(prefix, i);
      var before := Runs(prefix);
      if last.Launch? {
        KeysDiffer(last.record.agentId, a);
        assert VisitsOf(prefix, a) + [] == VisitsOf(prefix, a);
      } else {
        var after := AfterTick(before.records, last.input);
        TickProjects(before.records, last.input, a);
        UpdatesOfAppend(before.sent, after.sent, a);
        LifeAppend(r, VisitsOf(prefix, a), TickVisits(before.records, last.input, a));
      }
    }
  }

  lemma {:induction false} TickVisitsHaveSender(records: map<string, Record>, t: TickInput, a: string)
    requires t.sender
    ensures WithSender(TickVisits(records, t, a))
    decreases |t.order|
  {
    hide AfterTick;
    if t.order != [] {
      TickVisitsHaveSender(records, t.(order := t.order[..|t.order| - 1]), a);
    }
  }

  lemma {:induction false} VisitsHaveSender(ms: seq<Moment>, i: nat)
    requires LaunchedOnce(ms, i) && SenderSince(ms, i)
    ensures WithSender(VisitsOf(ms, ms[i].record.agentId))
  {
    hide SessionKeys.RunKey, TickVisits, Runs;
    var n, a := |ms| - 1, ms[i].record.agentId;
    if i == n {
      NotYetLaunched(ms[..n], a);
    } else {
      assert ms[..n][i] == ms[i];
      VisitsHaveSender(ms[..n], i);
      if ms[n].Tick? {
        TickVisitsHaveSender(Runs(ms[..n]).records, ms[n].input, a);
      }
    }
  }

  /** The terminal protocol over the whole monitor: every run, whenever launched, gets at most one terminal message,
      nothing is sent for it afterwards, and a sent message means a terminal, closed record. With a sender set since
      the launch, a closed record also means that the message was sent; in general it was sent exactly when the visit
      that closed the record had a sender. */
  lemma MonitorTerminalProtocol(ms: seq<Moment>, i: nat)
    requires LaunchedOnce(ms, i)
    ensures var h, k := Runs(ms), SessionKeys.RunKey(ms[i].record.agentId);
            var us := UpdatesOf(h.sent, ms[i].record.agentId);
            && k in h.records && Sane(h.records[k])
            && TerminalOnlyLast(us) && (EndsTerminal(us) ==> h.records[k].Closed())
            && (SenderSince(ms, i) ==> (h.records[k].Closed() <==> EndsTerminal(us)))
            && var vs := VisitsOf(ms, ms[i].record.agentId);
               EndsTerminal(us) <==> exists n :: 0 <= n < |vs| && ClosesAt(ms[i].record, vs, n) && vs[n].sender
  {
    hide ClosesAt, Runs, VisitsOf, Life, UpdatesOf, TerminalOnlyLast, EndsTerminal, WithSender, SessionKeys.RunKey;
    var r := ms[i].record;
    RunsAreLives(ms, i);
    TerminalProtocol(r, VisitsOf(ms, r.agentId));
    AnnouncedExactlyWhen(r, VisitsOf(ms, r.agentId));
    if SenderSince(ms, i) {
      VisitsHaveSender(ms, i);
      MarkedMeansSent(r, VisitsOf(ms, r.agentId));
    }
  }

  /** The logs over the whole monitor: with a sender set since its launch, what was announced for a run is what its own
      visits answered, without consecutive repeats, whatever other runs were launched, polled or failed in between. */
  lemma MonitorLogs(ms: seq<Moment>, i: nat)
    requires LaunchedOnce(ms, i) && SenderSince(ms, i)
    ensures var r, us := ms[i].record, UpdatesOf(Runs(ms).sent, ms[i].record.agentId);
            var ds, texts := DetailsSeen(r, VisitsOf(ms, r.agentId)), MessagesSeen(r, VisitsOf(ms, r.agentId));
            && Statuses(us) == Destutter(r.status, StatusesOf(ds))
            && Urls(us) == Values(Destutter(r.prUrl, UrlsOf(ds)))
            && FeedbackIds(us) == Destutter(r.lastAssistantMessageId, IdsOf(texts))
  {
    var r := ms[i].record;
    var vs := VisitsOf(ms, r.agentId);
    hide *;
    RunsAreLives(ms, i);
    VisitsHaveSender(ms, i);
    StatusLog(r, vs);
    PullRequestLog(r, vs);
    FeedbackLog(r, vs);
  }

  // ----- the mutable monitor over the same histories -----

  /** A record as launch_cursor_run stores it. */
  predicate AsLaunched(r: Record)
  {
    r == Launched(r.agentId, r.branchName, r.agentUrl, r.channelId, r.replyToMessageId, r.deliveryChannelId, r.status)
  }

  method NewRecord(r: Record) returns (record: LifecycleRunRecord)
    requires AsLaunched(r)
    ensures fresh(record) && record.Snap() == r
  {
    record := new LifecycleRunRecord(r.agentId, r.branchName, r.agentUrl, r.channelId, r.replyToMessageId,
                                     r.deliveryChannelId, r.status);
  }

  lemma SnapsWith(records: map<string, LifecycleRunRecord>, key: string, record: LifecycleRunRecord)
    ensures Snaps(records[key := record]) == Snaps(records)[key := record.Snap()]
  {
  }

  lemma NothingYet()
    ensures Runs([]) == History(map[], []) && Snaps(map[]) == map[]
  {
  }

  lemma RunsNext(ms: seq<Moment>, n: nat)
    requires n < |ms|
    ensures var before, after := Runs(ms[..n]), Runs(ms[..n + 1]);
            match ms[n]
            case Launch(r) => after == History(before.records[SessionKeys.RunKey(r.agentId) := r], before.sent)
            case Tick(t) => after == History(AfterTick(before.records, t).records,
                                             before.sent + AfterTick(before.records, t).sent)
  {
    assert ms[..n + 1][..n] == ms[..n];
  }

  /** The mutable records and the monitor driven through a history hold and send exactly what the function says. */
  method PlayRuns(ms: seq<Moment>) returns (monitor: CursorCloudRunMonitor, records: map<string, LifecycleRunRecord>)
    requires forall j :: 0 <= j < |ms| && ms[j].Launch? ==> AsLaunched(ms[j].record)
    ensures fresh(monitor) && fresh(records.Values) && KeyedByAgent(records)
    ensures Snaps(records) == Runs(ms).records && monitor.outbox == Runs(ms).sent
  {
    hide AsLaunched, TickAll, Snaps, Runs;
    NothingYet();
    monitor := new CursorCloudRunMonitor();
    records := map[];
    for n := 0 to |ms|
      invariant fresh(monitor) && fresh(records.Values) && KeyedByAgent(records)
      invariant Snaps(records) == Runs(ms[..n]).records && monitor.outbox == Runs(ms[..n]).sent
    {
      RunsNext(ms, n);
      match ms[n] {
        case Launch(r) =>
          var record := NewRecord(r);
          SnapsWith(records, SessionKeys.RunKey(r.agentId), record);
          assert records[SessionKeys.RunKey(r.agentId) := record].Values <= records.Values + {record};
          records := records[SessionKeys.RunKey(r.agentId) := record];
        case Tick(t) =>
          monitor.SetReplySender(t.sender);
          var threw := monitor.Tick(records, t.order, t.answers, t.now);
      }
    }
    assert ms[..|ms|] == ms;
  }

  // ----- progress -----

  predicate Reachable(a: PollAnswer)
  {
    a.agent.Got? && a.conversation.Got?
  }

  predicate SaysTerminal(a: PollAnswer)
  {
    Reachable(a) && a.agent.value.Some? && IsTerminalStatus(a.agent.value.value.status)
  }

  /** Polling this key ends the tick: an open run whose remote side fails. */
  predicate Blocks(records: map<string, Record>, t: TickInput, key: string)
  {
    key in records && !records[key].Closed() && !Reachable(t.answers(records[key].agentId))
  }

  /** None of the first n keys of the tick ends it. */
  predicate ClearUpTo(records: map<string, Record>, t: TickInput, n: nat)
    requires n <= |t.order|
  {
    forall q :: 0 <= q < n ==> !Blocks(records, t, t.order[q])
  }

  /** The tick gets to some occurrence of the key. */
  predicate GetsTo(records: map<string, Record>, t: TickInput, k: string)
  {
    exists p :: 0 <= p < |t.order| && t.order[p] == k && ClearUpTo(records, t, p)
  }

  lemma PollThrowsExactly(r: Record, a: PollAnswer, now: int)
    ensures Poll(r, a, now).threw <==> !Reachable(a)
  {
  }

  /** One key fails exactly when it blocks; and a key that does not fail changes no key's standing. */
  lemma TickOneBlocks(records: map<string, Record>, key: string, t: TickInput, other: string)
    ensures var after := TickOne(records, key, t.answers, t.now, t.sender);
            && (after.threw <==> Blocks(records, t, key))
            && (!after.threw ==> (Blocks(after.records, t, other) <==> Blocks(records, t, other)))
  {
    hide Poll, IsTerminalStatus;
    if key in records && !records[key].Closed() {
      PollThrowsExactly(records[key], t.answers(records[key].agentId), t.now);
      PollKeepsAgent(records[key], t.answers(records[key].agentId), t.now);
    }
  }

  /** A tick fails exactly when one of its keys blocks, whatever the order and repetitions; and as long as it has not
      failed, no key's standing has changed. */
  lemma {:induction false} TickThrowsExactly(records: map<string, Record>, t: TickInput, other: string)
    ensures var after := AfterTick(records, t);
            && (after.threw <==> !ClearUpTo(records, t, |t.order|))
            && (!after.threw ==> (Blocks(after.records, t, other) <==> Blocks(records, t, other)))
    decreases |t.order|
  {
    hide TickOne, Blocks;
    if t.order != [] {
      var n := |t.order| - 1;
      var prefix, key := t.(order := t.order[..n]), t.order[n];
      TickThrowsExactly(records, prefix, other);
      TickThrowsExactly(records, prefix, key);
      SameBlocks(records, t, prefix);
      if !AfterTick(records, prefix).threw {
        TickOneBlocks(AfterTick(records, prefix).records, key, t, other);
        TickOneBlocks(AfterTick(records, prefix).records, key, t, key);
        SameBlocks(AfterTick(records, prefix).records, t, prefix);
      }
    }
  }

  /** Blocking does not depend on the order of the tick. */
  lemma SameBlocks(records: map<string, Record>, t: TickInput, u: TickInput)
    requires u == t.(order := u.order)
    ensures forall key :: Blocks(records, t, key) <==> Blocks(records, u, key)
  {
  }

  /** The remote side reports the run as terminal. */
  predicate Reports(records: map<string, Record>, t: TickInput, k: string)
  {
    k in records && Sane(records[k]) && SaysTerminal(t.answers(records[k].agentId))
  }

  /** The run is closed by its own key only. */
  lemma TickOneCloses(records: map<string, Record>, key: string, t: TickInput, k: string)
    requires Reports(records, t, k)
    ensures var after := TickOne(records, key, t.answers, t.now, t.sender);
            && Reports(after.records, t, k)
            && (after.records[k].Closed() <==> records[k].Closed() || key == k)
  {
    hide Poll, IsTerminalStatus;
    if key in records && !records[key].Closed() {
      PollKeepsAgent(records[key], t.answers(records[key].agentId), t.now);
      if key == k {
        ReportCloses(records[k], t.answers(records[k].agentId), t.now);
      }
    }
  }

  lemma ReportCloses(r: Record, a: PollAnswer, now: int)
    requires Sane(r) && !r.Closed() && SaysTerminal(a)
    ensures Poll(r, a, now).record.Closed()
  {
    hide Poll;
    TerminalPollCloses(r, a, now);
  }

  /** The exact condition for progress: a tick closes an open run that the remote side reports as terminal if and only
      if it gets to the run's key before any open run whose remote side fails. */
  lemma {:induction false} TickClosesExactlyWhen(records: map<string, Record>, t: TickInput, k: string)
    requires Reports(records, t, k) && !records[k].Closed()
    ensures var after := AfterTick(records, t);
            Reports(after.records, t, k) && (after.records[k].Closed() <==> GetsTo(records, t, k))
    decreases |t.order|
  {
    hide TickOne, Blocks, IsTerminalStatus;
    if t.order != [] {
      var n := |t.order| - 1;
      var prefix, key := t.(order := t.order[..n]), t.order[n];
      var before := AfterTick(records, prefix);
      TickClosesExactlyWhen(records, prefix, k);
      SameBlocks(records, t, prefix);
      TickThrowsExactly(records, prefix, k);
      GetsToOneMore(records, t, prefix, k);
      if !before.threw {
        TickOneCloses(before.records, key, t, k);
      }
    }
  }

  lemma GetsToOneMore(records: map<string, Record>, t: TickInput, prefix: TickInput, k: string)
    requires t.order != [] && prefix == t.(order := t.order[..|t.order| - 1])
    ensures GetsTo(records, t, k)
       <==> GetsTo(records, prefix, k) || (t.order[|t.order| - 1] == k && ClearUpTo(records, prefix, |prefix.order|))
  {
    hide Blocks;
    SameBlocks(records, t, prefix);
    var n := |prefix.order|;
    assert forall p :: 0 <= p < n ==> prefix.order[p] == t.order[p];
    forall p | 0 <= p <= n ensures ClearUpTo(records, t, p) <==> ClearUpTo(records, prefix, p) {}
    if GetsTo(records, prefix, k) {
      var p :| 0 <= p < n && prefix.order[p] == k && ClearUpTo(records, prefix, p);
      assert t.order[p] == k && ClearUpTo(records, t, p);
    }
    if GetsTo(records, t, k) {
      var p :| 0 <= p <= n && t.order[p] == k && ClearUpTo(records, t, p);
      assert p < n ==> prefix.order[p] == k && ClearUpTo(records, prefix, p);
    }
  }

  /** Progress over the whole monitor, after any history: a tick closes an open run that is reported as terminal if and
      only if it gets to the run before any failing one; with a sender set since the launch, the end is then
      announced. */
  lemma ReportedRunIsClosed(ms: seq<Moment>, i: nat, t: TickInput)
    requires LaunchedOnce(ms, i) && SaysTerminal(t.answers(ms[i].record.agentId))
    ensures var k := SessionKeys.RunKey(ms[i].record.agentId);
            var before, h := Runs(ms), Runs(ms + [Tick(t)]);
            && k in before.records && k in h.records
            && (h.records[k].Closed() <==> before.records[k].Closed() || GetsTo(before.records, t, k))
            && (SenderSince(ms, i) && t.sender ==>
                  (h.records[k].Closed() <==> EndsTerminal(UpdatesOf(h.sent, ms[i].record.agentId))))
  {
    hide SessionKeys.RunKey, AfterTick, UpdatesOf, EndsTerminal, VisitsOf, IsTerminalStatus, GetsTo, Life,
         TerminalOnlyLast;
    var longer, a := ms + [Tick(t)], ms[i].record.agentId;
    var k := SessionKeys.RunKey(a);
    assert longer[..|longer| - 1] == ms && longer[i] == ms[i];
    MonitorTerminalProtocol(ms, i);
    RunsAreLives(ms, i);
    KeysDiffer(Runs(ms).records[k].agentId, a);
    MonitorTerminalProtocol(longer, i);
    if Runs(ms).records[k].Closed() {
      ClosedStaysClosed(Runs(ms).records, t, k);
    } else {
      TickClosesExactlyWhen(Runs(ms).records, t, k);
    }
  }

  lemma {:induction false} ClosedStaysClosed(records: map<string, Record>, t: TickInput, k: string)
    requires k in records && records[k].Closed()
    ensures k in AfterTick(records, t).records && AfterTick(records, t).records[k] == records[k]
    decreases |t.order|
  {
    hide Poll, IsTerminalStatus;
    if t.order != [] {
      ClosedStaysClosed(records, t.(order := t.order[..|t.order| - 1]), k);
    }
  }

  // ----- starvation -----

  /** The tick comes to this open run first, and its agent cannot be fetched. */
  predicate FailsFirst(records: map<string, Record>, m: Moment, key: string)
  {
    && m.Tick? && m.input.order != [] && m.input.order[0] == key
    && key in records && !records[key].Closed() && m.input.answers(records[key].agentId).agent.Threw?
  }

  lemma FailingTickChangesNothing(records: map<string, Record>, m: Moment, key: string)
    requires FailsFirst(records, m, key)
    ensures AfterTick(records, m.input) == RunMonitor.Ticked(records, [], true)
  {
    hide Poll, IsTerminalStatus;
    var t := m.input;
    assert t.order[..1] == [key] && t.order[..1][..0] == [];
    FailingPoll(records[key], t.answers(records[key].agentId), t.now);
    var one := TickOne(records, key, t.answers, t.now, t.sender);
    assert one == RunMonitor.Ticked(records, [], true);
    assert TickAll(records, [], t.answers, t.now, t.sender) == RunMonitor.Ticked(records, [], false);
    assert TickAll(records, t.order[..1], t.answers, t.now, t.sender)
        == RunMonitor.Ticked(records, [] + one.sent, true);
    TickStops(records, t.order, 0, t.answers, t.now, t.sender);
  }

  lemma FailingPoll(r: Record, a: PollAnswer, now: int)
    requires a.agent.Threw?
    ensures Poll(r, a, now) == Polled(r, [], true)
  {
  }

  /** A run that always comes first and whose remote side always fails starves all others: however many ticks pass, no
      record changes and nothing is announced, even for runs the remote side reports as finished. */
  lemma {:induction false} FailingRunStarvesOthers(ms: seq<Moment>, ts: seq<Moment>, key: string)
    requires forall j :: 0 <= j < |ts| ==> FailsFirst(Runs(ms).records, ts[j], key)
    ensures Runs(ms + ts) == Runs(ms)
    decreases |ts|
  {
    hide AfterTick, FailsFirst;
    if ts == [] {
      assert ms + ts == ms;
    } else {
      var n := |ts| - 1;
      assert (ms + ts)[..|ms + ts| - 1] == ms + ts[..n];
      FailingRunStarvesOthers(ms, ts[..n], key);
      FailingTickChangesNothing(Runs(ms).records, ts[n], key);
      IsTick(Runs(ms).records, ts[n], key);
    }
  }

  function Starting(agentId: string): Record
  {
    Launched(agentId, None, None, None, None, None, Some("RUNNING"))
  }

  /** Such a history: "a" cannot be reached, "b" has finished, and "b" stays open and unannounced for ever. */
  lemma FinishedRunIsNeverAnnounced(t: TickInput, n: nat)
    requires t.order == [SessionKeys.RunKey("a"), SessionKeys.RunKey("b")]
    requires t.answers("a").agent.Threw? && SaysTerminal(t.answers("b"))
    ensures var h := Runs([Launch(Starting("a")), Launch(Starting("b"))] + seq(n, _ => Tick(t)));
            && SessionKeys.RunKey("b") in h.records && h.records[SessionKeys.RunKey("b")] == Starting("b")
            && !h.records[SessionKeys.RunKey("b")].Closed() && h.sent == []
  {
    hide IsTerminalStatus, AfterTick, SessionKeys.RunKey;
    var ms, ts := [Launch(Starting("a")), Launch(Starting("b"))], seq(n, _ => Tick(t));
    assert ms[..1] == [Launch(Starting("a"))] && ms[..1][..0] == [];
    assert Runs(ms[..1]) == History(map[SessionKeys.RunKey("a") := Starting("a")], []);
    KeysDiffer("a", "b");
    assert "a"[0] != "b"[0];
    FailingRunStarvesOthers(ms, ts, SessionKeys.RunKey("a"));
  }

  lemma IsTick(records: map<string, Record>, m: Moment, key: string)
    requires FailsFirst(records, m, key)
    ensures m.Tick?
  {
  }
}
