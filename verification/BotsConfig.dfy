/** The step programs of the shipped configuration, as inputs to the interpreter. */
module BotsConfig {
  import opened Text
  import opened WorkflowModel
  import opened Interpreter
  import Steps
  import Termination

  const PROJECT := "project"
  const CODE_CHANGE := "codeChange"
  const CONFIRM := "confirmAction"
  const CHANNEL := "channelId"
  const CHANNEL_CREATE_FAILED := "CHANNEL_CREATE_FAILED"

  /** The result keys of the actions after create_channel. */
  const INSTANCE := "instanceId"
  const CONTEXT := "contextId"
  const DELIVERY := "deliveryChannelId"
  const LAUNCH_MESSAGE := "launchMessage"

  function Ask(prompt: string, storeIn: string): Step
  {
    Prompt(prompt, storeIn, None, [], None, None, None)
  }

  function Pick(id: string, caption: string): Choice
  {
    Choice(Some(id), Some(caption), None)
  }

  function If(key: string, value: string, next: int, clear: seq<string>): BranchEntry
  {
    BranchEntry(Equals(key, Some(value)), next, clear)
  }

  function Otherwise(next: int): BranchEntry
  {
    BranchEntry(Else, next, [])
  }

  const CONFIRM_CHOICES := [Pick("launch", "Launch"), Pick("edit_repo", "Edit repo"),
                            Pick("edit_request", "Edit request"), Pick("cancel", "Cancel")]

  const PROJECT_BRANCHES := [If(PROJECT, CUSTOM, 3, []), Otherwise(5)]
  const CONFIRM_BRANCHES := [If(CONFIRM, "launch", 10, []),
                             If(CONFIRM, "edit_repo", 0, [PROJECT, CODE_CHANGE, CONFIRM]),
                             If(CONFIRM, "edit_request", 5, [CODE_CHANGE, CONFIRM]),
                             Otherwise(19)]
  const ROOM_BRANCHES := [If(CHANNEL, CHANNEL_CREATE_FAILED, 18, []), Otherwise(12)]

  /** The conversation of luna_cursor: repository, request, confirmation. */
  function LunaTalk(position: nat): Step
  {
    match position
    case 0 => Prompt("Choose a repository", PROJECT, None, [], None, None, Some("githubRepos"))
    case 1 => Capture(PROJECT, None, false)
    case 2 => Branch(PROJECT_BRANCHES)
    case 3 => Ask("Enter repo URL or owner/repo", PROJECT)
    case 4 => Capture(PROJECT, None, false)
    case 5 => Ask("What feature or spec-driven code change should I implement?", CODE_CHANGE)
    case 6 => Capture(CODE_CHANGE, None, false)
    case 7 => Prompt("Repo: {{project}}, Branch: main. Change: {{codeChange}}. Confirm?", CONFIRM,
                        Some("present_choices"), CONFIRM_CHOICES, None, None, None)
    case 8 => Capture(CONFIRM, None, false)
    case _ => Branch(CONFIRM_BRANCHES)
  }

  /** Its actions once the request is confirmed. */
  function LunaAct(position: nat): Step
  {
    match position
    case 10 => CallAction("create_channel", map["lifecycleOwnerBotId" := Str("arrietty")], Some(CHANNEL))
    case 11 => Branch(ROOM_BRANCHES)
    case 12 => CallAction("provision_bot_instance", map["templateBotId" := Str("arrietty")], Some(INSTANCE))
    case 13 => CallAction("create_lifecycle_context", map["configuredBotId" := Str("arrietty")], Some(CONTEXT))
    case 14 => CallAction("create_thread", map["threadName" := Str("Room updates")], Some(DELIVERY))
    case 15 => CallAction("post_channel_message",
                          map["content" := Str("This room is handled by {{lifecycleBotName}}. Repo: {{project}}. "
                                               + "Request: {{codeChange}}. Launching Cursor…"),
                              "lifecycleBotName" := Str("Arrietty")], None)
    case 16 => CallAction("launch_cursor_run", map[], Some(LAUNCH_MESSAGE))
    case 17 => Finish("Launching now. See <#{{channelId}}>.")
    case 18 => Finish("Could not create room.")
    case _ => Finish("Cancelled.")
  }

  /** The step at a position of luna_cursor. */
  function LunaStep(position: nat): Step
  {
    if position < 10 then LunaTalk(position) else LunaAct(position)
  }

  function LunaCursor(): (p: Program)
    ensures |p| == 20
  {
    seq(20, (position: nat) => LunaStep(position))
  }

  function ArriettyRoom(): (p: Program)
    ensures |p| == 7
  {
    [ Capture("roomAction", None, true),
      Branch([If("roomAction", "status", 2, []), If("roomAction", "retry", 3, []), If("roomAction", "close", 4, []),
              If("roomAction", "", 5, []), Otherwise(6)]),
      Finish("Room status: active. Repo and request are in context."),
      Finish("Retry requested. You can ask for another run."),
      Finish("Room closed. Use the channel for follow-up."),
      Finish("What would you like? (status, retry, close, or ask anything)"),
      Finish("{{roomAction}}") ]
  }

  lemma SessionKeyIsReserved()
    ensures PROJECT != SESSION_KEY && CODE_CHANGE != SESSION_KEY && CONFIRM != SESSION_KEY && CHANNEL != SESSION_KEY
    ensures INSTANCE != SESSION_KEY && CONTEXT != SESSION_KEY && DELIVERY != SESSION_KEY
    ensures LAUNCH_MESSAGE != SESSION_KEY
  {
    assert SESSION_KEY[0] == '_' && PROJECT[0] == 'p' && CODE_CHANGE[0] == 'c' && CONFIRM[0] == 'c';
    assert CHANNEL[0] == 'c' && INSTANCE[0] == 'i' && CONTEXT[0] == 'c' && DELIVERY[0] == 'd';
    assert LAUNCH_MESSAGE[0] == 'l';
  }

  lemma FieldsDiffer()
    ensures PROJECT != CODE_CHANGE && PROJECT != CONFIRM && CODE_CHANGE != CONFIRM
    ensures CHANNEL != PROJECT && CHANNEL != CODE_CHANGE && CHANNEL != CONFIRM
    ensures INSTANCE != PROJECT && INSTANCE != CODE_CHANGE && INSTANCE != CONFIRM && INSTANCE != CHANNEL
    ensures CONTEXT != PROJECT && CONTEXT != CODE_CHANGE && CONTEXT != CONFIRM && CONTEXT != CHANNEL
    ensures DELIVERY != PROJECT && DELIVERY != CODE_CHANGE && DELIVERY != CONFIRM && DELIVERY != CHANNEL
    ensures LAUNCH_MESSAGE != PROJECT && LAUNCH_MESSAGE != CODE_CHANGE && LAUNCH_MESSAGE != CONFIRM
         && LAUNCH_MESSAGE != CHANNEL
  {
    assert |PROJECT| == 7 && |CODE_CHANGE| == 10 && |CONFIRM| == 13 && |CHANNEL| == 9;
    assert |INSTANCE| == 10 && |CONTEXT| == 9 && |DELIVERY| == 17 && |LAUNCH_MESSAGE| == 13;
    assert CODE_CHANGE[0] == 'c' && INSTANCE[0] == 'i' && CONFIRM[0] == 'c' && LAUNCH_MESSAGE[0] == 'l';
    assert CHANNEL[1] == 'h' && CONTEXT[1] == 'o';
  }

  /** Room and context are always created for "arrietty", whatever the session holds under these names. */
  lemma RoomIsBoundToArrietty(event: Event, data: Data)
    ensures var create, context := Steps.BuildArgs(LunaAct(10).bind, event, data),
                                   Steps.BuildArgs(LunaAct(13).bind, event, data);
            && "lifecycleOwnerBotId" in create && create["lifecycleOwnerBotId"] == Val(Str("arrietty"))
            && "configuredBotId" in context && context["configuredBotId"] == Val(Str("arrietty"))
  {
    Steps.ArgumentPrecedence(LunaAct(10).bind, event, data, "lifecycleOwnerBotId");
    Steps.ArgumentPrecedence(LunaAct(13).bind, event, data, "configuredBotId");
    Steps.BoundText("arrietty", "", data);
  }

  lemma ConfirmBranchesReask(p: Program)
    requires |p| == 20 && p[0] == LunaStep(0) && p[5] == LunaStep(5)
    ensures Termination.Disciplined(p, 9, Branch(CONFIRM_BRANCHES))
  {
    hide Termination.Reasks;
    EditsReask(p);
  }

  lemma EditsReask(p: Program)
    requires |p| == 20 && p[0] == LunaStep(0) && p[5] == LunaStep(5)
    ensures Termination.Reasks(p, CONFIRM_BRANCHES[1]) && Termination.Reasks(p, CONFIRM_BRANCHES[2])
  {
    assert |PROJECT| != |SESSION_KEY| && |CODE_CHANGE| != |SESSION_KEY|;
    assert CONFIRM_BRANCHES[1].clear[0] == PROJECT && CONFIRM_BRANCHES[2].clear[0] == CODE_CHANGE;
  }

  lemma LunaIsWellStructured()
    ensures Termination.WellStructured(LunaCursor())
  {
    var p := LunaCursor();
    assert p[0] == LunaStep(0) && p[5] == LunaStep(5);
    forall j | 0 <= j < 20 ensures Termination.Disciplined(p, j, LunaStep(j)) {
      if j == 9 {
        ConfirmBranchesReask(p);
      } else {
        OtherStepsGoForward(p, j);
      }
    }
  }

  lemma OtherStepsGoForward(p: Program, j: nat)
    requires j < 20 && j != 9
    ensures Termination.Disciplined(p, j, LunaStep(j))
  {
    if j < 10 {
      assert Termination.Disciplined(p, j, LunaTalk(j));
    } else {
      assert Termination.Disciplined(p, j, LunaAct(j));
    }
  }

  lemma TalkKeepsSessionKey(j: nat)
    ensures KeepsSessionKey(LunaTalk(j))
  {
    SessionKeyIsReserved();
  }

  lemma ActKeepsSessionKey(j: nat)
    ensures KeepsSessionKey(LunaAct(j))
  {
    SessionKeyIsReserved();
  }

  lemma LunaKeepsSessionKey()
    ensures KeepsSessionKeys(LunaCursor())
  {
    hide KeepsSessionKey, LunaTalk, LunaAct;
    forall j | 0 <= j < 20 ensures KeepsSessionKey(LunaCursor()[j]) {
      TalkKeepsSessionKey(j);
      ActKeepsSessionKey(j);
    }
  }

  lemma ArriettyIsWellStructured()
    ensures Termination.WellStructured(ArriettyRoom()) && KeepsSessionKeys(ArriettyRoom())
  {
    assert |"roomAction"| != |SESSION_KEY|;
  }

  /** What arrietty_room answers to an event: it reads the trimmed, lower-cased text and answers in one run. */
  lemma ArriettyAnswers(w: World, event: Event, key: string, stored: Option<Snapshot>)
    requires stored.None? || stored.value.status == Completed
    ensures var said := w.lower(Trim(Steps.ReadContent(event, None)));
            var end := Run(ArriettyRoom(), w, event, key, stored);
            && end.state.status == Completed && end.result.completed
            && end.state.data == map[SESSION_KEY := Str(key), "roomAction" := Str(said)]
            && (said == "status" ==> Says(end, w, 2)) && (said == "retry" ==> Says(end, w, 3))
            && (said == "close" ==> Says(end, w, 4)) && (said == "" ==> Says(end, w, 5))
            && (said !in {"status", "retry", "close", ""} ==> Says(end, w, 6))
  {
    hide Steps.ReadContent, Trim, Steps.Fill, Run, ArriettyRoom, Says;
    ArriettyRuns(w, event, key, stored);
    assert "status"[0] != "retry"[0] && "status"[0] != "close"[0] && "retry"[0] != "close"[0];
  }

  /** The texts of its answers. */
  lemma ArriettyTexts()
    ensures ArriettyRoom()[2] == Finish("Room status: active. Repo and request are in context.")
    ensures ArriettyRoom()[3] == Finish("Retry requested. You can ask for another run.")
    ensures ArriettyRoom()[4] == Finish("Room closed. Use the channel for follow-up.")
    ensures ArriettyRoom()[5] == Finish("What would you like? (status, retry, close, or ask anything)")
    ensures ArriettyRoom()[6] == Finish("{{roomAction}}")
  {
  }

  lemma ArriettyFinishes(j: nat)
    requires 2 <= j <= 6
    ensures ArriettyRoom()[j].Finish?
  {
  }

  /** The reply is the filled message of the step at j. */
  predicate Says(end: RunEnd, w: World, j: nat)
  {
    j < 7 && ArriettyRoom()[j].Finish?
    && end.result.reply == Steps.Fill(ArriettyRoom()[j].message, w, end.state.data)
  }

  lemma ArriettyRuns(w: World, event: Event, key: string, stored: Option<Snapshot>)
    requires stored.None? || stored.value.status == Completed
    ensures var said := w.lower(Trim(Steps.ReadContent(event, None)));
            var end := Run(ArriettyRoom(), w, event, key, stored);
            && end.state.status == Completed && end.result.completed && Says(end, w, ArriettyChoice(said))
            && end.state.data == map[SESSION_KEY := Str(key), "roomAction" := Str(said)]
  {
    hide Steps.ReadContent, Trim, Steps.Fill, RunFrom, StepOnce, Enter, ArriettyRoom, ArriettyChoice;
    var said := w.lower(Trim(Steps.ReadContent(event, None)));
    var s := Enter(stored, key, 7);
    EnterStarts(stored, key, 7);
    ArriettyListens(w, event, s);
    var t := Snapshot(s.data["roomAction" := Str(said)], 1, Active, None, None);
    ArriettyDecides(w, event, t, said);
    var u := t.(index := ArriettyChoice(said));
    ArriettyFinishes(u.index);
    DoneEndsRun(ArriettyRoom(), w, event, 2, u);
    var c := StepOnce(ArriettyRoom(), w, event, 2, u);
    TraceFixesRun(ArriettyRoom(), w, event, s, [s, t, u], RunEnd(c.state, c.result), 0);
    assert map[SESSION_KEY := Str(key)]["roomAction" := Str(said)]
        == map[SESSION_KEY := Str(key), "roomAction" := Str(said)];
  }

  function ArriettyChoice(said: string): (j: nat)
    ensures 2 <= j <= 6
  {
    if said == "status" then 2 else if said == "retry" then 3 else if said == "close" then 4
    else if said == "" then 5 else 6
  }

  lemma ArriettyListens(w: World, event: Event, s: Snapshot)
    requires s.index == 0
    ensures var data := s.data["roomAction" := Str(w.lower(Trim(Steps.ReadContent(event, None))))];
            StepOnce(ArriettyRoom(), w, event, 0, s) == Running(Snapshot(data, 1, Active, None, None))
  {
    hide Steps.ReadContent, Trim;
    var data := s.data["roomAction" := Str(w.lower(Trim(Steps.ReadContent(event, None))))];
    assert Cleared(data, []) == data;
  }

  lemma ArriettyDecides(w: World, event: Event, t: Snapshot, said: string)
    requires t.index == 1 && t.status == Active && t.waitingFor == None == t.pendingPrompt
    requires Lookup(t.data, "roomAction") == Some(Str(said))
    ensures StepOnce(ArriettyRoom(), w, event, 1, t) == Running(t.(index := ArriettyChoice(said)))
  {
    hide Steps.Matches, ArriettyChoice, Steps.NoMatchBefore, Steps.RunBranch;
    var entries, j := ArriettyRoom()[1].entries, ArriettyChoice(said) - 2;
    ArriettyMatches(t.data, said);
    Steps.BranchTakesFirstMatch(entries, t.data, 1);
    assert Cleared(t.data, []) == t.data;
  }

  lemma ArriettyMatches(data: Data, said: string)
    requires Lookup(data, "roomAction") == Some(Str(said))
    ensures var entries, j := ArriettyRoom()[1].entries, ArriettyChoice(said) - 2;
            && 0 <= j < |entries| && Steps.Matches(entries[j], data) && Steps.NoMatchBefore(entries, j, data)
            && entries[j].next == j + 2 && entries[j].clear == []
  {
    assert "status"[0] != "retry"[0] && "status"[0] != "close"[0] && "retry"[0] != "close"[0];
  }

  /** In both shipped programs no run can report the step limit, and what is persisted is truthful. */
  lemma ShippedProgramsHalt(p: Program, w: World, event: Event, key: string, stored: Option<Snapshot>)
    requires p == LunaCursor() || p == ArriettyRoom()
    ensures var end := Run(p, w, event, key, stored);
            && (exists ss :: HaltingTrace(p, w, event, Enter(stored, key, |p|), ss, end))
            && !(exists ss, e :: LimitTrace(p, w, event, Enter(stored, key, |p|), ss, e))
            && Truthful(end, key)
  {
    LunaIsWellStructured();
    LunaKeepsSessionKey();
    ArriettyIsWellStructured();
    Termination.LimitUnreachable(p, w, event, key, stored);
    RunIsTruthful(p, w, event, key, stored);
  }
}
