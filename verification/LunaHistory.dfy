/** Safety of the luna_cursor program over every event history of one session: which steps a run executes, and what
    has happened before launch_cursor_run executes. */
module LunaHistory {
  import opened Text
  import opened WorkflowModel
  import opened Steps
  import opened Interpreter
  import opened BotsConfig

  /** One event of a session with the world's answers during its run. */
  datatype Input = Input(event: Event, world: World)

  type History = seq<Input>

  const STEPS: nat := 20
  const LAUNCH: nat := 16

  /** In the shipped wiring the program's actions are registered actions, none of them a tool. */
  predicate RegistryOnly(w: World)
  {
    forall j: nat :: 10 <= j < STEPS && LunaAct(j).CallAction? ==> !w.isTool(LunaAct(j).actionId)
  }

  function Content(event: Event): string
  {
    ReadContent(event, None)
  }

  // ----- what one step of any program does, by kind -----

  function At(data: Data, index: nat): Snapshot
  {
    Snapshot(data, index, Active, None, None)
  }

  function RegistryAnswer(step: Step, w: World, i: nat, event: Event, data: Data): Option<Value>
    requires step.CallAction?
  {
    var answer := RegistryRun(w, i, step.actionId, event, data, BuildArgs(step.bind, event, data));
    if answer.outcome.Returned? then answer.outcome.value else None
  }

  lemma ClearNothing(data: Data)
    ensures Cleared(data, []) == data
  {
  }

  lemma CaptureStep(p: Program, w: World, event: Event, i: nat, s: Snapshot)
    requires s.index < |p| && p[s.index].Capture?
    ensures StepOnce(p, w, event, i, s)
         == Running(At(s.data[p[s.index].storeIn := Str(Captured(p[s.index], w, event))], s.index + 1))
  {
    ClearNothing(s.data[p[s.index].storeIn := Str(Captured(p[s.index], w, event))]);
  }

  lemma OpenPromptStep(p: Program, w: World, event: Event, i: nat, s: Snapshot)
    requires s.index < |p| && p[s.index].Prompt?
    requires p[s.index].storeIn in s.data ==> s.data[p[s.index].storeIn] == Str(CUSTOM)
    ensures var c := StepOnce(p, w, event, i, s);
            c.Halted? && c.state.data == s.data && c.state.index == s.index + 1 && c.state.status == WaitingInput
  {
    ClearNothing(s.data);
  }

  lemma ActionStep(p: Program, w: World, event: Event, i: nat, s: Snapshot)
    requires s.index < |p| && p[s.index].CallAction? && !w.isTool(p[s.index].actionId)
    ensures var answer := RegistryAnswer(p[s.index], w, i, event, s.data);
            StepOnce(p, w, event, i, s) == Running(At(Stored(s.data, p[s.index].target, answer), s.index + 1))
  {
    var step := p[s.index];
    ClearNothing(Stored(s.data, step.target, RegistryAnswer(step, w, i, event, s.data)));
  }

  lemma FinishStep(p: Program, w: World, event: Event, i: nat, s: Snapshot)
    requires s.index < |p| && p[s.index].Finish?
    ensures var c := StepOnce(p, w, event, i, s);
            c.Halted? && c.state.data == s.data && c.state.index == s.index + 1 && c.state.status == Completed
  {
    ClearNothing(s.data);
  }

  lemma BranchStep(p: Program, w: World, event: Event, i: nat, s: Snapshot, j: nat)
    requires s.index < |p| && p[s.index].Branch? && j < |p[s.index].entries|
    requires Matches(p[s.index].entries[j], s.data) && NoMatchBefore(p[s.index].entries, j, s.data)
    ensures var e := p[s.index].entries[j];
            StepOnce(p, w, event, i, s) == Running(At(Cleared(s.data, e.clear), e.next))
  {
    BranchTakesFirstMatch(p[s.index].entries, s.data, s.index);
  }

  // ----- the history of one session -----

  function After(key: string, h: History, n: nat): Option<Snapshot>
    requires n <= |h|
  {
    if n == 0 then None
    else Some(Run(LunaCursor(), h[n - 1].world, h[n - 1].event, key, After(key, h, n - 1)).state)
  }

  /** The state in which the run of event n starts. */
  function Start(key: string, h: History, n: nat): Snapshot
    requires n <= |h|
  {
    Enter(After(key, h, n), key, STEPS)
  }

  /** The state before iteration j of a run from s, if the run gets there. */
  function StateAt(p: Program, w: World, event: Event, s: Snapshot, j: nat): Option<Snapshot>
  {
    if j == 0 then Some(s)
    else
      var before := StateAt(p, w, event, s, j - 1);
      if before.None? then None
      else
        var c := StepOnce(p, w, event, j - 1, before.value);
        if c.Running? then Some(c.state) else None
  }

  function Visited(key: string, h: History, n: nat, j: nat): Option<Snapshot>
    requires n < |h|
  {
    StateAt(LunaCursor(), h[n].world, h[n].event, Start(key, h, n), j)
  }

  /** The run of event n executes the step at the given position. */
  ghost predicate Executes(key: string, h: History, n: nat, position: nat)
    requires n < |h|
  {
    exists j :: 0 <= j < STEP_LIMIT && Visited(key, h, n, j).Some? && Visited(key, h, n, j).value.index == position
  }

  lemma {:induction false} TraceIsVisited(p: Program, w: World, event: Event, s: Snapshot, ss: seq<Snapshot>, j: nat)
    requires IsTrace(p, w, event, s, ss) && StepOnce(p, w, event, |ss| - 1, ss[|ss| - 1]).Halted?
    ensures StateAt(p, w, event, s, j) == if j < |ss| then Some(ss[j]) else None
  {
    if j > 0 {
      TraceIsVisited(p, w, event, s, ss, j - 1);
    }
  }

  // ----- the itinerary of one run -----

  /** A session between two runs: where it stands and which fields are still unanswered. */
  predicate Ready(s: Snapshot, key: string)
  {
    && HasSessionKey(s, key) && CHANNEL !in s.data && CONFIRM !in s.data
    && match s.index
       case 0 => PROJECT !in s.data && CODE_CHANGE !in s.data
       case 1 => CODE_CHANGE !in s.data
       case 4 => CODE_CHANGE !in s.data
       case 6 => PROJECT in s.data && CODE_CHANGE !in s.data
       case 8 => PROJECT in s.data && CODE_CHANGE in s.data
       case _ => false
  }

  /** What create_channel answers at a given iteration. */
  function RoomAnswer(w: World, event: Event, i: nat, data: Data): Option<Value>
  {
    RegistryAnswer(LunaAct(10), w, i, event, data)
  }

  /** In a confirmed run create_channel is the third step executed: it is registered, and answers that it failed. */
  predicate RoomRefused(w: World, event: Event, data: Data)
  {
    && w.isAction("create_channel")
    && var args := BuildArgs(map["lifecycleOwnerBotId" := Str("arrietty")], event, data);
       var outcome := w.action(2, "create_channel", event, data, args).outcome;
       outcome.Returned? && outcome.value.Some? && outcome.value.value.Show() == CHANNEL_CREATE_FAILED
  }

  lemma CreateRoomStep()
    ensures LunaAct(10) == CallAction("create_channel", map["lifecycleOwnerBotId" := Str("arrietty")], Some(CHANNEL))
  {
  }

  lemma PlainBindingHasNoNull(event: Event, data: Data)
    ensures Null !in BuildArgs(map["lifecycleOwnerBotId" := Str("arrietty")], event, data).Values
  {
    hide BuildArgs;
    assert "arrietty"[0] == 'a' && forall key :: ("{{" + key + "}}")[0] == '{';
    NullArgumentExactlyWhen(map["lifecycleOwnerBotId" := Str("arrietty")], event, data);
  }

  /** What the registered action answers is what the step stores. */
  lemma RoomIsTheActionsAnswer(w: World, event: Event, i: nat, data: Data)
    ensures var args := BuildArgs(map["lifecycleOwnerBotId" := Str("arrietty")], event, data);
            RoomAnswer(w, event, i, data) == if !w.isAction("create_channel") then None else
              match w.action(i, "create_channel", event, data, args).outcome
              case Returned(v) => v
              case Raised(_) => None
  {
    hide BuildArgs, RegistryRun, LunaAct;
    CreateRoomStep();
    PlainBindingHasNoNull(event, data);
    RegistryReads(w, i, "create_channel", event, data,
                  BuildArgs(map["lifecycleOwnerBotId" := Str("arrietty")], event, data));
  }

  /** The positions a run executes, from where the session stands and what the event says. */
  function Itinerary(s: Snapshot, w: World, event: Event): seq<nat>
  {
    var content := Content(event);
    match s.index
    case 0 => [0]
    case 1 => if content == CUSTOM then [1, 2, 3] else [1, 2, 5]
    case 4 => [4, 5]
    case 6 => [6, 7]
    case _ =>
      if content == "edit_repo" then [8, 9, 0]
      else if content == "edit_request" then [8, 9, 5]
      else if content != "launch" then [8, 9, 19]
      else if RoomRefused(w, event, s.data[CONFIRM := Str(content)]) then [8, 9, 10, 11, 18]
      else [8, 9, 10, 11, 12, 13, 14, 15, 16, 17]
  }

  ghost predicate Follows(w: World, event: Event, s: Snapshot, ss: seq<Snapshot>)
  {
    && HaltingTrace(LunaCursor(), w, event, s, ss, RunFrom(LunaCursor(), w, event, 0, s))
    && |ss| == |Itinerary(s, w, event)|
    && forall j :: 0 <= j < |ss| ==> ss[j].index == Itinerary(s, w, event)[j]
  }

  function RunEndOf(w: World, event: Event, s: Snapshot): RunEnd
  {
    RunFrom(LunaCursor(), w, event, 0, s)
  }

  lemma TraceFollows(w: World, event: Event, s: Snapshot, ss: seq<Snapshot>)
    requires IsTrace(LunaCursor(), w, event, s, ss) && |ss| <= STEP_LIMIT
    requires StepOnce(LunaCursor(), w, event, |ss| - 1, ss[|ss| - 1]).Halted?
    requires |ss| == |Itinerary(s, w, event)|
    requires forall j :: 0 <= j < |ss| ==> ss[j].index == Itinerary(s, w, event)[j]
    ensures Follows(w, event, s, ss)
    ensures RunEndOf(w, event, s).state == StepOnce(LunaCursor(), w, event, |ss| - 1, ss[|ss| - 1]).state
  {
    var c := StepOnce(LunaCursor(), w, event, |ss| - 1, ss[|ss| - 1]);
    TraceFixesRun(LunaCursor(), w, event, s, ss, RunEnd(c.state, c.result), 0);
  }

  predicate NoLaunch(ss: seq<Snapshot>)
  {
    forall j :: 0 <= j < |ss| ==> ss[j].index != LAUNCH
  }

  /** The run stopped at a prompt with the given answers. */
  predicate Asks(end: RunEnd, data: Data, next: nat)
  {
    end.state.data == data && end.state.index == next && end.state.status == WaitingInput
  }

  // ----- the steps of luna_cursor, one by one -----

  lemma LunaAt(j: nat)
    requires j < 20
    ensures LunaCursor()[j] == if j < 10 then LunaTalk(j) else LunaAct(j)
  {
  }

  lemma CaptureAt(w: World, event: Event, i: nat, s: Snapshot, field: string)
    requires s.index in {1, 4, 6, 8}
    requires field == if s.index == 6 then CODE_CHANGE else if s.index == 8 then CONFIRM else PROJECT
    ensures StepOnce(LunaCursor(), w, event, i, s) == Running(At(s.data[field := Str(Content(event))], s.index + 1))
  {
    hide StepOnce;
    LunaAt(s.index);
    CaptureStep(LunaCursor(), w, event, i, s);
  }

  lemma PromptAt(w: World, event: Event, i: nat, s: Snapshot, field: string)
    requires s.index in {0, 3, 5, 7}
    requires field == if s.index == 5 then CODE_CHANGE else if s.index == 7 then CONFIRM else PROJECT
    requires field in s.data ==> s.data[field] == Str(CUSTOM)
    ensures var c := StepOnce(LunaCursor(), w, event, i, s);
            c.Halted? && c.state.data == s.data && c.state.index == s.index + 1 && c.state.status == WaitingInput
  {
    hide StepOnce;
    LunaAt(s.index);
    OpenPromptStep(LunaCursor(), w, event, i, s);
  }

  /** Step 2: a custom repository is asked for again. */
  lemma ChooseRepo(w: World, event: Event, i: nat, s: Snapshot, content: string)
    requires s.index == 2 && Lookup(s.data, PROJECT) == Some(Str(content))
    ensures StepOnce(LunaCursor(), w, event, i, s) == Running(At(s.data, if content == CUSTOM then 3 else 5))
  {
    hide StepOnce;
    LunaAt(2);
    ClearNothing(s.data);
    BranchStep(LunaCursor(), w, event, i, s, if content == CUSTOM then 0 else 1);
  }

  /** Step 9: which entry the confirmation selects. */
  function Decision(content: string): nat
  {
    if content == "launch" then 0 else if content == "edit_repo" then 1 else if content == "edit_request" then 2 else 3
  }

  lemma Decide(w: World, event: Event, i: nat, s: Snapshot, content: string)
    requires s.index == 9 && Lookup(s.data, CONFIRM) == Some(Str(content))
    ensures var e := CONFIRM_BRANCHES[Decision(content)];
            StepOnce(LunaCursor(), w, event, i, s) == Running(At(Cleared(s.data, e.clear), e.next))
  {
    hide StepOnce;
    LunaAt(9);
    BranchStep(LunaCursor(), w, event, i, s, Decision(content));
  }

  predicate Refused(data: Data)
  {
    CHANNEL in data && data[CHANNEL].Show() == CHANNEL_CREATE_FAILED
  }

  /** Step 11: only the sentinel of a failed room stops the launch; a missing channel id does not. */
  lemma CheckRoom(w: World, event: Event, i: nat, s: Snapshot)
    requires s.index == 11
    ensures StepOnce(LunaCursor(), w, event, i, s) == Running(At(s.data, if Refused(s.data) then 18 else 12))
  {
    hide StepOnce;
    LunaAt(11);
    ClearNothing(s.data);
    assert "null" != CHANNEL_CREATE_FAILED by { assert |"null"| == 4 && CHANNEL_CREATE_FAILED[4] == 'N'; }
    BranchStep(LunaCursor(), w, event, i, s, if Refused(s.data) then 0 else 1);
  }

  lemma FinishAt(w: World, event: Event, i: nat, s: Snapshot)
    requires s.index in {17, 18, 19}
    ensures var c := StepOnce(LunaCursor(), w, event, i, s); c.Halted? && c.state.status == Completed
  {
    hide StepOnce;
    LunaAt(s.index);
    FinishStep(LunaCursor(), w, event, i, s);
  }

  lemma CreateRoom(w: World, event: Event, i: nat, s: Snapshot)
    requires s.index == 10 && RegistryOnly(w)
    ensures StepOnce(LunaCursor(), w, event, i, s)
         == Running(At(Stored(s.data, Some(CHANNEL), RoomAnswer(w, event, i, s.data)), 11))
  {
    hide StepOnce;
    LunaAt(10);
    ActionStep(LunaCursor(), w, event, i, s);
  }

  predicate SameRequest(t: Snapshot, s: Snapshot)
  {
    Lookup(t.data, PROJECT) == Lookup(s.data, PROJECT) && Lookup(t.data, CODE_CHANGE) == Lookup(s.data, CODE_CHANGE)
  }

  /** The session keeps its repository, its request and its room. */
  predicate SameAnswers(t: Snapshot, s: Snapshot)
  {
    SameRequest(t, s) && Lookup(t.data, CHANNEL) == Lookup(s.data, CHANNEL)
  }

  lemma LaterTargets(w: World, j: nat)
    requires j in {12, 13, 14, 15, 16} && RegistryOnly(w)
    ensures LunaAct(j).CallAction? && !w.isTool(LunaAct(j).actionId)
    ensures var t := LunaAct(j).target;
            t == None || t == Some(INSTANCE) || t == Some(CONTEXT) || t == Some(DELIVERY) || t == Some(LAUNCH_MESSAGE)
  {
  }

  /** The later actions store under their own keys only. */
  lemma LaterAction(w: World, event: Event, i: nat, s: Snapshot) returns (t: Snapshot)
    requires s.index in {12, 13, 14, 15, 16} && RegistryOnly(w)
    ensures StepOnce(LunaCursor(), w, event, i, s) == Running(t)
    ensures t.index == s.index + 1 && SameAnswers(t, s)
  {
    hide StepOnce, LunaAct, RegistryAnswer;
    LunaAt(s.index);
    LaterTargets(w, s.index);
    ActionStep(LunaCursor(), w, event, i, s);
    FieldsDiffer();
    var answer := RegistryAnswer(LunaAct(s.index), w, i, event, s.data);
    t := At(Stored(s.data, LunaAct(s.index).target, answer), s.index + 1);
  }

  /** The steps from s to step 17 in order, the step at position p in iteration p - shift. */
  ghost predicate ActionTrace(w: World, event: Event, ts: seq<Snapshot>, s: Snapshot, shift: nat)
    requires 12 <= s.index <= 17 && shift <= 12
  {
    && |ts| == 18 - s.index && ts[0] == s
    && (forall k :: 0 <= k < |ts| ==> ts[k].index == s.index + k && SameAnswers(ts[k], s))
    && forall k :: 0 <= k < |ts| - 1 ==>
      StepOnce(LunaCursor(), w, event, s.index - shift + k, ts[k]) == Running(ts[k + 1])
  }

  lemma {:induction false} Actions(w: World, event: Event, s: Snapshot, shift: nat) returns (ts: seq<Snapshot>)
    requires 12 <= s.index <= 17 && shift <= 12 && RegistryOnly(w)
    ensures ActionTrace(w, event, ts, s, shift)
    decreases 17 - s.index
  {
    hide StepOnce, LunaCursor;
    if s.index == 17 {
      ts := [s];
    } else {
      var t := LaterAction(w, event, s.index - shift, s);
      var rest := Actions(w, event, t, shift);
      ts := [s] + rest;
      assert forall k :: 0 < k < |ts| ==> ts[k] == rest[k - 1];
    }
  }

  // ----- runs -----

  lemma FirstRun(w: World, event: Event, s: Snapshot)
    requires s.index == 0 && PROJECT !in s.data
    ensures Follows(w, event, s, [s]) && NoLaunch([s])
    ensures Asks(RunEndOf(w, event, s), s.data, 1)
  {
    hide StepOnce, RunFrom, LunaCursor;
    PromptAt(w, event, 0, s, PROJECT);
    TraceFollows(w, event, s, [s]);
  }

  lemma RepoAnswered(w: World, event: Event, s: Snapshot) returns (ss: seq<Snapshot>)
    requires s.index == 1 && CODE_CHANGE !in s.data
    ensures Follows(w, event, s, ss) && NoLaunch(ss)
    ensures var data := s.data[PROJECT := Str(Content(event))];
            Asks(RunEndOf(w, event, s), data, if Content(event) == CUSTOM then 4 else 6)
  {
    hide StepOnce, RunFrom, LunaCursor;
    var content := Content(event);
    var data := s.data[PROJECT := Str(content)];
    CaptureAt(w, event, 0, s, PROJECT);
    ChooseRepo(w, event, 1, At(data, 2), content);
    FieldsDiffer();
    var asked := At(data, if content == CUSTOM then 3 else 5);
    PromptAt(w, event, 2, asked, if content == CUSTOM then PROJECT else CODE_CHANGE);
    ss := [s, At(data, 2), asked];
    TraceFollows(w, event, s, ss);
  }

  lemma CustomRepoAnswered(w: World, event: Event, s: Snapshot) returns (ss: seq<Snapshot>)
    requires s.index == 4 && CODE_CHANGE !in s.data
    ensures Follows(w, event, s, ss) && NoLaunch(ss)
    ensures Asks(RunEndOf(w, event, s), s.data[PROJECT := Str(Content(event))], 6)
  {
    hide StepOnce, RunFrom, LunaCursor;
    var data := s.data[PROJECT := Str(Content(event))];
    CaptureAt(w, event, 0, s, PROJECT);
    FieldsDiffer();
    PromptAt(w, event, 1, At(data, 5), CODE_CHANGE);
    ss := [s, At(data, 5)];
    TraceFollows(w, event, s, ss);
  }

  lemma ChangeAnswered(w: World, event: Event, s: Snapshot) returns (ss: seq<Snapshot>)
    requires s.index == 6 && CONFIRM !in s.data
    ensures Follows(w, event, s, ss) && NoLaunch(ss)
    ensures Asks(RunEndOf(w, event, s), s.data[CODE_CHANGE := Str(Content(event))], 8)
  {
    hide StepOnce, RunFrom, LunaCursor;
    var data := s.data[CODE_CHANGE := Str(Content(event))];
    CaptureAt(w, event, 0, s, CODE_CHANGE);
    FieldsDiffer();
    PromptAt(w, event, 1, At(data, 7), CONFIRM);
    ss := [s, At(data, 7)];
    TraceFollows(w, event, s, ss);
  }

  lemma EditChosen(w: World, event: Event, s: Snapshot) returns (ss: seq<Snapshot>)
    requires s.index == 8 && Content(event) in {"edit_repo", "edit_request"}
    ensures Follows(w, event, s, ss) && NoLaunch(ss)
    ensures var e := CONFIRM_BRANCHES[Decision(Content(event))];
            Asks(RunEndOf(w, event, s), Cleared(s.data[CONFIRM := Str(Content(event))], e.clear), e.next + 1)
  {
    hide StepOnce, RunFrom, LunaCursor;
    var content := Content(event);
    var data := s.data[CONFIRM := Str(content)];
    var e := CONFIRM_BRANCHES[Decision(content)];
    var cleared := At(Cleared(data, e.clear), e.next);
    CaptureAt(w, event, 0, s, CONFIRM);
    Decide(w, event, 1, At(data, 9), content);
    assert "edit_repo"[5] == 'r' && "edit_request"[6] == 'e' && |"edit_repo"| == 9 && |"edit_request"| == 12;
    assert "launch"[0] == 'l' && "edit_repo"[0] == 'e' && "edit_request"[0] == 'e';
    var field := if content == "edit_repo" then PROJECT else CODE_CHANGE;
    assert field == e.clear[0];
    PromptAt(w, event, 2, cleared, field) by { SessionKeyIsReserved(); }
    ss := [s, At(data, 9), cleared];
    TraceFollows(w, event, s, ss);
  }

  lemma Cancelled(w: World, event: Event, s: Snapshot) returns (ss: seq<Snapshot>)
    requires s.index == 8 && Decision(Content(event)) == 3
    ensures Follows(w, event, s, ss) && NoLaunch(ss)
    ensures RunEndOf(w, event, s).state.status == Completed
  {
    hide StepOnce, RunFrom, LunaCursor;
    var data := s.data[CONFIRM := Str(Content(event))];
    CaptureAt(w, event, 0, s, CONFIRM);
    Decide(w, event, 1, At(data, 9), Content(event));
    ClearNothing(data);
    FinishAt(w, event, 2, At(data, 19));
    ss := [s, At(data, 9), At(data, 19)];
    TraceFollows(w, event, s, ss);
  }

  /** Steps 8 to 11 of a confirmed run. */
  lemma RoomCreated(w: World, event: Event, s: Snapshot) returns (head: seq<Snapshot>)
    requires s.index == 8 && CHANNEL !in s.data && Content(event) == "launch" && RegistryOnly(w)
    ensures |head| == 4 && IsTrace(LunaCursor(), w, event, s, head)
    ensures head[1].index == 9 && head[2].index == 10 && head[3].index == 11
    ensures SameRequest(head[3], s) && Refused(head[3].data) == RoomRefused(w, event, s.data[CONFIRM := Str("launch")])
  {
    hide StepOnce, LunaCursor, RoomAnswer, BuildArgs, LunaAct;
    var data := s.data[CONFIRM := Str("launch")];
    RoomIsTheActionsAnswer(w, event, 2, data);
    CaptureAt(w, event, 0, s, CONFIRM);
    Decide(w, event, 1, At(data, 9), "launch");
    ClearNothing(data);
    CreateRoom(w, event, 2, At(data, 10));
    FieldsDiffer();
    head := [s, At(data, 9), At(data, 10), At(Stored(data, Some(CHANNEL), RoomAnswer(w, event, 2, data)), 11)];
  }

  lemma LaunchChosen(w: World, event: Event, s: Snapshot) returns (ss: seq<Snapshot>)
    requires s.index == 8 && CHANNEL !in s.data && Content(event) == "launch" && RegistryOnly(w)
    ensures Follows(w, event, s, ss)
    ensures RunEndOf(w, event, s).state.status == Completed
    ensures forall j :: 0 <= j < |ss| && ss[j].index == LAUNCH ==> Launches(ss[j], s)
  {
    hide StepOnce, RunFrom, LunaCursor, RoomRefused;
    var head := RoomCreated(w, event, s);
    var room := head[3].data;
    CheckRoom(w, event, 3, head[3]);
    assert "launch"[0] != "edit_repo"[0] && "launch"[0] != "edit_request"[0];
    if Refused(room) {
      FinishAt(w, event, 4, At(room, 18));
      ss := head + [At(room, 18)];
    } else {
      var ts := Actions(w, event, At(room, 12), 8);
      FinishAt(w, event, 9, ts[5]);
      LongTrace(w, event, s, head, ts);
      ss := head + ts;
    }
    TraceFollows(w, event, s, ss);
  }

  /** The launch step runs on the session's own repository and request, in a room that was not refused. */
  predicate Launches(t: Snapshot, s: Snapshot)
  {
    SameRequest(t, s) && !Refused(t.data)
  }

  lemma LongTrace(w: World, event: Event, s: Snapshot, head: seq<Snapshot>, ts: seq<Snapshot>)
    requires 0 < |head| <= 12 && IsTrace(LunaCursor(), w, event, s, head)
    requires |ts| > 0 && ts[0].index == 12 && ActionTrace(w, event, ts, ts[0], 12 - |head|)
    requires StepOnce(LunaCursor(), w, event, |head| - 1, head[|head| - 1]) == Running(ts[0])
    ensures IsTrace(LunaCursor(), w, event, s, head + ts)
  {
    hide StepOnce, LunaCursor;
    var ss, n := head + ts, |head|;
    forall j | 0 <= j < |ss| - 1
      ensures StepOnce(LunaCursor(), w, event, j, ss[j]) == Running(ss[j + 1])
    {
      if j < n - 1 {
        assert ss[j] == head[j] && ss[j + 1] == head[j + 1];
      } else if j >= n {
        var k := j - n;
        assert ss[j] == ts[k] && ss[j + 1] == ts[k + 1];
        assert StepOnce(LunaCursor(), w, event, ts[0].index - (12 - n) + k, ts[k]) == Running(ts[k + 1]);
      }
    }
  }

  // ----- every run from a session that is ready -----

  /** What one run makes of a ready session: the session is ready again or completed, its repository and request
      come from this event or stay, and a launch happens only on a confirmed request. */
  predicate Keeps(s: Snapshot, event: Event, t: Snapshot, key: string)
  {
    && (t.status == Completed || (t.status == WaitingInput && Ready(t, key)))
    && (t.status == WaitingInput && t.index in {6, 8} ==>
        if s.index in {1, 4} then Lookup(t.data, PROJECT) == Some(Str(Content(event)))
        else s.index in {6, 8} && Lookup(t.data, PROJECT) == Lookup(s.data, PROJECT))
    && (t.status == WaitingInput && t.index == 8 ==>
        s.index == 6 && Lookup(t.data, CODE_CHANGE) == Some(Str(Content(event))))
  }

  lemma KeepsAtTalk(s: Snapshot, event: Event, end: RunEnd, key: string)
    requires Ready(s, key) && s.index in {0, 1, 4, 6}
    requires s.index == 0 ==> Asks(end, s.data, 1)
    requires s.index in {1, 4} ==>
        end.state.index in {4, 6} && Asks(end, s.data[PROJECT := Str(Content(event))], end.state.index)
    requires s.index == 6 ==> Asks(end, s.data[CODE_CHANGE := Str(Content(event))], 8)
    ensures Keeps(s, event, end.state, key)
  {
    hide Content;
    FieldsDiffer();
    SessionKeyIsReserved();
  }

  lemma KeepsAtEdit(s: Snapshot, event: Event, end: RunEnd, key: string)
    requires Ready(s, key) && s.index == 8 && Decision(Content(event)) in {1, 2}
    requires var e := CONFIRM_BRANCHES[Decision(Content(event))];
             Asks(end, Cleared(s.data[CONFIRM := Str(Content(event))], e.clear), e.next + 1)
    ensures Keeps(s, event, end.state, key)
  {
    hide Content;
    FieldsDiffer();
    SessionKeyIsReserved();
    var e := CONFIRM_BRANCHES[Decision(Content(event))];
    if Decision(Content(event)) == 1 {
      assert e.clear[0] == PROJECT && e.clear[1] == CODE_CHANGE && e.clear[2] == CONFIRM;
    } else {
      assert e.clear[0] == CODE_CHANGE && e.clear[1] == CONFIRM;
    }
  }

  lemma OneRun(w: World, event: Event, s: Snapshot, key: string) returns (ss: seq<Snapshot>)
    requires Ready(s, key) && RegistryOnly(w)
    ensures Follows(w, event, s, ss)
    ensures Keeps(s, event, RunEndOf(w, event, s).state, key)
    ensures forall j :: 0 <= j < |ss| && ss[j].index == LAUNCH ==>
        s.index == 8 && Content(event) == "launch" && Launches(ss[j], s)
  {
    hide RunEndOf, Itinerary, Content, Follows, Launches;
    if s.index == 8 {
      if Decision(Content(event)) == 0 {
        ss := LaunchChosen(w, event, s);
      } else if Decision(Content(event)) == 3 {
        ss := Cancelled(w, event, s);
      } else {
        ss := EditChosen(w, event, s);
        KeepsAtEdit(s, event, RunEndOf(w, event, s), key);
      }
    } else {
      if s.index == 0 {
        FirstRun(w, event, s);
        ss := [s];
      } else if s.index == 1 {
        ss := RepoAnswered(w, event, s);
      } else if s.index == 4 {
        ss := CustomRepoAnswered(w, event, s);
      } else {
        ss := ChangeAnswered(w, event, s);
      }
      KeepsAtTalk(s, event, RunEndOf(w, event, s), key);
    }
  }

  // ----- every history -----

  predicate Shipped(h: History)
  {
    forall n :: 0 <= n < |h| ==> RegistryOnly(h[n].world)
  }

  /** The repository in the data is what event a answered to a repository prompt. */
  ghost predicate ProjectFrom(key: string, h: History, a: nat, data: Data)
    requires a < |h|
  {
    Lookup(data, PROJECT) == Some(Str(Content(h[a].event))) && (Executes(key, h, a, 1) || Executes(key, h, a, 4))
  }

  /** The request in the data is what event b answered to the change prompt. */
  ghost predicate ChangeFrom(key: string, h: History, b: nat, data: Data)
    requires b < |h|
  {
    Lookup(data, CODE_CHANGE) == Some(Str(Content(h[b].event))) && Executes(key, h, b, 6)
  }

  /** Repository and request of a session about to be confirmed come from two earlier events, in this order. */
  ghost predicate Sourced(key: string, h: History, n: nat)
    requires n <= |h|
  {
    var s := Start(key, h, n);
    && (s.index == 6 ==> exists a :: 0 <= a < n && ProjectFrom(key, h, a, s.data))
    && (s.index == 8 ==>
          exists a, b :: 0 <= a < b < n && ProjectFrom(key, h, a, s.data) && ChangeFrom(key, h, b, s.data))
  }

  lemma ExecutesStart(key: string, h: History, n: nat)
    requires n < |h|
    ensures Executes(key, h, n, Start(key, h, n).index)
  {
    assert Visited(key, h, n, 0) == Some(Start(key, h, n));
  }

  lemma NextStart(key: string, h: History, n: nat)
    requires n < |h| && Ready(Start(key, h, n), key)
    requires Keeps(Start(key, h, n), h[n].event, RunEndOf(h[n].world, h[n].event, Start(key, h, n)).state, key)
    ensures var end := RunEndOf(h[n].world, h[n].event, Start(key, h, n)).state;
            Start(key, h, n + 1)
              == if end.status == Completed then FRESH.(data := map[SESSION_KEY := Str(key)]) else end
    ensures Ready(Start(key, h, n + 1), key)
  {
    hide RunFrom, LunaCursor, Content;
    var end := RunEndOf(h[n].world, h[n].event, Start(key, h, n)).state;
    assert |LunaCursor()| == STEPS;
    assert After(key, h, n + 1) == Some(end);
    assert end.status != Completed ==> end.data[SESSION_KEY := Str(key)] == end.data;
    SessionKeyIsReserved();
  }

  lemma {:induction false} SessionIsReady(key: string, h: History, n: nat)
    requires n <= |h| && Shipped(h)
    ensures Ready(Start(key, h, n), key) && Sourced(key, h, n)
  {
    hide RunFrom, LunaCursor, Content, Visited, After, Ready, Itinerary, StepOnce, Follows;
    if n == 0 {
      FreshIsReady(key, h);
    } else {
      var m := n - 1;
      SessionIsReady(key, h, m);
      var s := Start(key, h, m);
      var ss := OneRun(h[m].world, h[m].event, s, key);
      NextStart(key, h, m);
      ExecutesStart(key, h, m);
      SourcesCarryOver(key, h, m);
    }
  }

  lemma FreshIsReady(key: string, h: History)
    ensures Ready(Start(key, h, 0), key) && Start(key, h, 0).index == 0
  {
    SessionKeyIsReserved();
  }

  lemma SourcesCarryOver(key: string, h: History, m: nat)
    requires m < |h| && Sourced(key, h, m) && Executes(key, h, m, Start(key, h, m).index)
    requires var end := RunEndOf(h[m].world, h[m].event, Start(key, h, m)).state;
             && Keeps(Start(key, h, m), h[m].event, end, key)
             && Start(key, h, m + 1)
                  == if end.status == Completed then FRESH.(data := map[SESSION_KEY := Str(key)]) else end
    ensures Sourced(key, h, m + 1)
  {
    hide RunEndOf, LunaCursor, Content, Executes, Start, Ready;
    var s, t := Start(key, h, m), Start(key, h, m + 1);
    if t.index == 6 || t.index == 8 {
      if s.index in {1, 4} {
        assert ProjectFrom(key, h, m, t.data);
      } else if s.index == 6 {
        var a :| 0 <= a < m && ProjectFrom(key, h, a, s.data);
        assert ProjectFrom(key, h, a, t.data);
        assert t.index == 8 ==> ChangeFrom(key, h, m, t.data);
      } else {
        var a, b :| 0 <= a < b < m && ProjectFrom(key, h, a, s.data) && ChangeFrom(key, h, b, s.data);
        assert ProjectFrom(key, h, a, t.data);
      }
    }
  }

  /** Every run of every history executes exactly the positions of its itinerary. */
  lemma RunFollowsItinerary(key: string, h: History, n: nat)
    requires n < |h| && Shipped(h)
    ensures var it := Itinerary(Start(key, h, n), h[n].world, h[n].event);
            forall j: nat :: if j < |it| then Visited(key, h, n, j).Some? && Visited(key, h, n, j).value.index == it[j]
                             else Visited(key, h, n, j).None?
  {
    hide RunFrom, LunaCursor, Content, After, Ready, Itinerary, StepOnce;
    var s := Start(key, h, n);
    SessionIsReady(key, h, n);
    var ss := OneRun(h[n].world, h[n].event, s, key);
    forall j: nat ensures Visited(key, h, n, j) == if j < |ss| then Some(ss[j]) else None {
      TraceIsVisited(LunaCursor(), h[n].world, h[n].event, s, ss, j);
    }
  }

  /** No event is consumed by two capture steps. */
  lemma OneCapturePerEvent(key: string, h: History, n: nat, j: nat, k: nat)
    requires n < |h| && Shipped(h) && j < k
    requires Visited(key, h, n, j).Some? && Visited(key, h, n, k).Some?
    ensures !(Visited(key, h, n, j).value.index in {1, 4, 6, 8} && Visited(key, h, n, k).value.index in {1, 4, 6, 8})
  {
    hide Visited, Content, RoomRefused, Start;
    RunFollowsItinerary(key, h, n);
  }

  /** launch_cursor_run executes only in a run whose own event was captured as exactly "launch", on a repository and
      a request captured from two earlier, distinct events, and never in a room that could not be created. */
  lemma LaunchIsConfirmed(key: string, h: History, n: nat, j: nat)
    requires n < |h| && Shipped(h)
    requires Visited(key, h, n, j).Some? && Visited(key, h, n, j).value.index == LAUNCH
    ensures Executes(key, h, n, 8) && Content(h[n].event) == "launch"
    ensures var data := Visited(key, h, n, j).value.data;
            exists a, b :: 0 <= a < b < n && ProjectFrom(key, h, a, data) && ChangeFrom(key, h, b, data)
    ensures CHANNEL in Visited(key, h, n, j).value.data
        ==> Visited(key, h, n, j).value.data[CHANNEL].Show() != CHANNEL_CREATE_FAILED
  {
    hide RunFrom, LunaCursor, Content, After, Ready, Itinerary, StepOnce, Executes;
    var s := Start(key, h, n);
    SessionIsReady(key, h, n);
    var ss := OneRun(h[n].world, h[n].event, s, key);
    TraceIsVisited(LunaCursor(), h[n].world, h[n].event, s, ss, j);
    ExecutesStart(key, h, n);
    var a, b :| 0 <= a < b < n && ProjectFrom(key, h, a, s.data) && ChangeFrom(key, h, b, s.data);
    var data := Visited(key, h, n, j).value.data;
    assert ProjectFrom(key, h, a, data) && ChangeFrom(key, h, b, data);
  }

  /** Exactly when a run launches: the session stood at the confirmation, the event said "launch", and create_channel
      did not answer with its failure sentinel. */
  lemma LaunchExactlyWhen(key: string, h: History, n: nat)
    requires n < |h| && Shipped(h)
    ensures var s := Start(key, h, n);
            Executes(key, h, n, LAUNCH) <==>
              && s.index == 8 && Content(h[n].event) == "launch"
              && !RoomRefused(h[n].world, h[n].event, s.data[CONFIRM := Str("launch")])
  {
    hide Visited, Content, RoomRefused, Start;
    RunFollowsItinerary(key, h, n);
    SessionIsReady(key, h, n);
    assert "launch"[0] != "edit_repo"[0] && "launch"[0] != "edit_request"[0];
    var s, w, event := Start(key, h, n), h[n].world, h[n].event;
    if s.index == 8 && Content(event) == "launch" && !RoomRefused(w, event, s.data[CONFIRM := Str("launch")]) {
      assert Itinerary(s, w, event)[8] == LAUNCH;
      assert Visited(key, h, n, 8).value.index == LAUNCH;
    }
  }

  /** The launch step, and no other one, calls launch_cursor_run; the actions before it call these actions in this order
      and store their answers under these keys. */
  lemma ActionsInOrder(j: nat)
    requires j < STEPS
    ensures LunaCursor()[j].CallAction? <==> j in {10, 12, 13, 14, 15, 16}
    ensures j == 10 ==> Calls(j, "create_channel", Some("channelId"))
    ensures j == 12 ==> Calls(j, "provision_bot_instance", Some("instanceId"))
    ensures j == 13 ==> Calls(j, "create_lifecycle_context", Some("contextId"))
    ensures j == 14 ==> Calls(j, "create_thread", Some("deliveryChannelId"))
    ensures j == 15 ==> Calls(j, "post_channel_message", None)
    ensures j == LAUNCH ==> Calls(j, "launch_cursor_run", Some("launchMessage")) && LunaCursor()[j].bind == map[]
  {
    hide LunaCursor;
    LunaAt(j);
    if j < 10 {
      hide LunaAct;
    } else {
      hide LunaTalk;
    }
  }

  predicate Calls(j: nat, action: string, target: Option<string>)
    requires j < STEPS
  {
    LunaCursor()[j].CallAction? && LunaCursor()[j].actionId == action && LunaCursor()[j].target == target
  }

  // ----- a history that launches -----

  /** A user's message in a room. */
  function Say(text: string): Event
  {
    Event("discord:guild", "message", map["content" := PText(text)])
  }

  /** A world whose actions all answer null. */
  function QuietWorld(): World
  {
    World(s => s, d => [], (i, p, e, d) => None, id => false, (i, id, a) => Answer(Returned(None), []), id => false,
          (i, id, e, d, a) => Answer(Returned(None), []))
  }

  function FourEvents(): History
  {
    [Input(Say("hello"), QuietWorld()), Input(Say("octo/repo"), QuietWorld()), Input(Say("a change"), QuietWorld()),
     Input(Say("launch"), QuietWorld())]
  }

  lemma SaidIsContent(text: string)
    ensures Content(Say(text)) == text
  {
    assert |"content"| == 7 && |"customId"| == 8 && |"values"| == 6 && |"text"| == 4 && |"interaction"| != |"message"|;
    assert Say(text).TextAt("content") == Some(text);
  }

  lemma FourEventsAdvance(key: string)
    ensures var h := FourEvents();
            Shipped(h) && Start(key, h, 1).index == 1 && Start(key, h, 2).index == 6 && Start(key, h, 3).index == 8
  {
    hide RunFrom, LunaCursor, Content, After, Ready, Itinerary, StepOnce, Follows, Start, Sourced;
    var h := FourEvents();
    FreshIsReady(key, h);
    NextAt(key, h, 0);
    SaidIsContent("octo/repo");
    assert "octo/repo"[0] != CUSTOM[0];
    NextAt(key, h, 1);
    NextAt(key, h, 2);
  }

  /** Where a session goes on after a run that does not confirm anything. */
  lemma NextAt(key: string, h: History, n: nat)
    requires n < |h| && Shipped(h) && Start(key, h, n).index in {0, 1, 6}
    ensures Start(key, h, n + 1).index
         == match Start(key, h, n).index
            case 0 => 1
            case 1 => if Content(h[n].event) == CUSTOM then 4 else 6
            case _ => 8
  {
    hide RunFrom, LunaCursor, Content, After, Itinerary, StepOnce, Follows, Sourced;
    var s, w, event := Start(key, h, n), h[n].world, h[n].event;
    SessionIsReady(key, h, n);
    var trace := OneRun(w, event, s, key);
    NextStart(key, h, n);
    if s.index == 0 {
      FirstRun(w, event, s);
    } else if s.index == 1 {
      var ss := RepoAnswered(w, event, s);
    } else {
      var ss := ChangeAnswered(w, event, s);
    }
  }

  /** The safety theorems are about something: any message, a repository, a request and "launch" make the fourth run
      execute launch_cursor_run, even though create_channel answered null. */
  lemma LaunchHappens(key: string)
    ensures Shipped(FourEvents()) && Executes(key, FourEvents(), 3, LAUNCH)
  {
    hide RunFrom, LunaCursor, Content, After, Itinerary, StepOnce, Start, Executes;
    FourEventsAdvance(key);
    SaidIsContent("launch");
    LaunchExactlyWhen(key, FourEvents(), 3);
  }

  // ----- why the actions must not be tools -----

  /** create_channel fails or answers null. */
  ghost predicate GivesNoRoom(w: World, event: Event)
  {
    forall i, data, args :: var outcome := w.action(i, "create_channel", event, data, args).outcome;
      outcome.Returned? ==> outcome.value == None
  }

  /** A tool, unlike a registered action, may throw. If create_channel were a tool that throws, the confirmed session
      would be stored in error at step 10, and the next event, whatever it says, would go on to launch without any
      capture step executing. */
  lemma ToolFailureLosesConfirmation(w1: World, e1: Event, s: Snapshot, key: string, w2: World, e2: Event)
    requires s.index == 8 && HasSessionKey(s, key) && Content(e1) == "launch"
    requires w1.isTool(LunaAct(10).actionId) && forall i, id, args :: w1.tool(i, id, args).outcome.Raised?
    requires RegistryOnly(w2) && GivesNoRoom(w2, e2)
    requires CHANNEL !in s.data
    ensures var t := RunEndOf(w1, e1, s).state;
            && t.status == Error && t.index == 10 && Enter(Some(t), key, STEPS) == t
            && (exists j :: StateAt(LunaCursor(), w2, e2, t, j).Some?
                            && StateAt(LunaCursor(), w2, e2, t, j).value.index == LAUNCH)
            && (forall j :: StateAt(LunaCursor(), w2, e2, t, j).Some?
                            ==> StateAt(LunaCursor(), w2, e2, t, j).value.index >= 10)
  {
    hide StepOnce, RunFrom, LunaCursor;
    var t := ThrowingRoom(w1, e1, s, key);
    var ss := ResumedRun(w2, e2, t);
    forall j: nat ensures StateAt(LunaCursor(), w2, e2, t, j) == if j < |ss| then Some(ss[j]) else None {
      TraceIsVisited(LunaCursor(), w2, e2, t, ss, j);
    }
    assert StateAt(LunaCursor(), w2, e2, t, 6).value.index == LAUNCH;
  }

  lemma ThrowingRoom(w: World, event: Event, s: Snapshot, key: string) returns (t: Snapshot)
    requires s.index == 8 && HasSessionKey(s, key) && Content(event) == "launch"
    requires w.isTool(LunaAct(10).actionId) && forall i, id, args :: w.tool(i, id, args).outcome.Raised?
    ensures t == RunEndOf(w, event, s).state && t.status == Error && t.index == 10 && Enter(Some(t), key, STEPS) == t
    ensures t.data == s.data[CONFIRM := Str("launch")]
  {
    hide RunFrom, LunaCursor;
    var p, data := LunaCursor(), s.data[CONFIRM := Str("launch")];
    assert p[10] == LunaAct(10) by { LunaAt(10); }
    CaptureAt(w, event, 0, s, CONFIRM);
    Decide(w, event, 1, At(data, 9), "launch");
    ClearNothing(data);
    var ss := [s, At(data, 9), At(data, 10)];
    var c := StepOnce(p, w, event, 2, At(data, 10));
    TraceFixesRun(p, w, event, s, ss, RunEnd(c.state, c.result), 0);
    t := c.state;
    SessionKeyIsReserved();
    assert t.data[SESSION_KEY := Str(key)] == t.data;
  }

  lemma ResumedRun(w: World, event: Event, t: Snapshot) returns (ss: seq<Snapshot>)
    requires t.index == 10 && CHANNEL !in t.data && RegistryOnly(w)
    requires GivesNoRoom(w, event)
    ensures IsTrace(LunaCursor(), w, event, t, ss) && StepOnce(LunaCursor(), w, event, |ss| - 1, ss[|ss| - 1]).Halted?
    ensures |ss| == 8 && forall j :: 0 <= j < 8 ==> ss[j].index == 10 + j
  {
    hide StepOnce, LunaCursor, RoomAnswer;
    CreateRoom(w, event, 0, t);
    RoomIsTheActionsAnswer(w, event, 0, t.data);
    CheckRoom(w, event, 1, At(t.data, 11));
    var ts := Actions(w, event, At(t.data, 12), 10);
    LongTrace(w, event, t, [t, At(t.data, 11)], ts);
    FinishAt(w, event, 7, ts[5]);
    ss := [t, At(t.data, 11)] + ts;
  }
}
