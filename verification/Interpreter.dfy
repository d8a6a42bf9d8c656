/** The step interpreter as a function of the stored session, the event and the world's answers, its small-step
    semantics, and what every run leaves in the store. */
module Interpreter {
  import opened Text
  import opened WorkflowModel
  import opened Steps

  const STEP_LIMIT: nat := 100
  const LIMIT_MESSAGE := "Workflow step limit reached."

  type Program = seq<Step>

  // ----- changes of the session state -----

  function MarkActive(s: Snapshot): Snapshot
  {
    s.(status := Active, waitingFor := None, pendingPrompt := None)
  }

  function MarkWaiting(s: Snapshot, field: Option<string>, prompt: string): Snapshot
  {
    s.(status := WaitingInput, waitingFor := field, pendingPrompt := Some(prompt))
  }

  function MarkCompleted(s: Snapshot): Snapshot
  {
    s.(status := Completed, waitingFor := None, pendingPrompt := None)
  }

  function MarkError(s: Snapshot): Snapshot
  {
    s.(status := Error)
  }

  function Stored(data: Data, storeIn: Option<string>, value: Option<Value>): Data
  {
    if storeIn.Some? && value.Some? then data[storeIn.value := value.value] else data
  }

  /** The session key survives every clear list. */
  function Cleared(data: Data, keys: seq<string>): Data
  {
    map k | k in data && (k !in keys || k == SESSION_KEY) :: data[k]
  }

  // ----- one step -----

  datatype Config = Running(state: Snapshot) | Halted(state: Snapshot, result: RunResult)

  function WaitingResult(r: StepResult): RunResult
  {
    RunResult(if r.rich.Some? then r.rich.value.text else r.prompt, r.rich, true, false, r.waitingFor, None)
  }

  function CompletedResult(r: StepResult): RunResult
  {
    RunResult(if r.rich.Some? then r.rich.value.text else r.message, r.rich, false, true, None, None)
  }

  function NextIndex(s: Snapshot, r: StepResult): nat
  {
    if r.next.Some? then r.next.value else s.index + 1
  }

  /** Store, then clear, then advance. */
  function Apply(s: Snapshot, r: StepResult): Config
  {
    var t := s.(data := Cleared(Stored(s.data, r.storeIn, r.storeValue), r.clear));
    var next := NextIndex(s, r);
    match r.mode
    case Waiting => Halted(MarkWaiting(t, r.waitingFor, r.prompt).(index := next), WaitingResult(r))
    case Complete => Halted(MarkCompleted(t).(index := next), CompletedResult(r))
    case Failed => Halted(MarkError(t), FailedWith(Some(r.message)))
    case Continue => Running(MarkActive(t).(index := next))
  }

  /** Pointwise reading of store-before-clear: a key that is both stored and cleared by one step is gone. */
  lemma StoreThenClear(s: Snapshot, r: StepResult, k: string)
    ensures var d := Apply(s, r).state.data;
            if k in r.clear && k != SESSION_KEY then k !in d
            else if r.storeIn == Some(k) && r.storeValue.Some? then k in d && d[k] == r.storeValue.value
            else Lookup(d, k) == Lookup(s.data, k)
  {
  }

  /** A step that throws changes nothing but the status. */
  function ApplyRun(s: Snapshot, run: StepRun): Config
  {
    match run
    case Threw(message, _) => Halted(MarkError(s), FailedWith(message))
    case Ran(r, _) => Apply(s, r)
  }

  function ResultOf(c: Config): Option<RunResult>
  {
    match c case Halted(_, result) => Some(result) case Running(_) => None
  }

  function RunStep(p: Program, w: World, event: Event, i: nat, s: Snapshot): StepRun
    requires s.index < |p|
  {
    Execute(p[s.index], w, i, event, s.data, s.index)
  }

  function StepOnce(p: Program, w: World, event: Event, i: nat, s: Snapshot): Config
  {
    if s.index >= |p| then Halted(MarkCompleted(s), CompletedWith(""))
    else ApplyRun(s, RunStep(p, w, event, i, s))
  }

  function StepWrites(p: Program, w: World, event: Event, i: nat, s: Snapshot): seq<Write>
  {
    if s.index >= |p| then [] else RunStep(p, w, event, i, s).writes
  }

  // ----- one run -----

  datatype RunEnd = RunEnd(state: Snapshot, result: RunResult)

  function LimitEnd(s: Snapshot): RunEnd
  {
    RunEnd(MarkError(s), FailedWith(Some(LIMIT_MESSAGE)))
  }

  function RunFrom(p: Program, w: World, event: Event, i: nat, s: Snapshot): RunEnd
    requires i <= STEP_LIMIT
    decreases STEP_LIMIT - i
  {
    if i == STEP_LIMIT then LimitEnd(s)
    else
      match StepOnce(p, w, event, i, s)
      case Halted(t, r) => RunEnd(t, r)
      case Running(t) => RunFrom(p, w, event, i + 1, t)
  }

  function WritesFrom(p: Program, w: World, event: Event, i: nat, s: Snapshot): seq<Write>
    requires i <= STEP_LIMIT
    decreases STEP_LIMIT - i
  {
    if i == STEP_LIMIT then []
    else
      StepWrites(p, w, event, i, s) +
      match StepOnce(p, w, event, i, s)
      case Halted(_, _) => []
      case Running(t) => WritesFrom(p, w, event, i + 1, t)
  }

  /** The state a run starts from: the stored one, or a fresh one when there is none, when the last run completed,
      or when the stored index lies past the program. */
  function Enter(stored: Option<Snapshot>, key: string, size: nat): Snapshot
  {
    var s := if stored.Some? then stored.value else FRESH;
    var t := if s.status == Completed || s.index >= size then FRESH else s;
    t.(data := t.data[SESSION_KEY := Str(key)])
  }

  function Run(p: Program, w: World, event: Event, key: string, stored: Option<Snapshot>): RunEnd
  {
    RunFrom(p, w, event, 0, Enter(stored, key, |p|))
  }

  /** A run starts afresh, holding nothing but the session key, when there is no stored session, when the last run
      completed, or when the stored position is not in the program; otherwise it goes on where the session stands. */
  lemma EnterStarts(stored: Option<Snapshot>, key: string, size: nat)
    ensures var s := Enter(stored, key, size);
            && Lookup(s.data, SESSION_KEY) == Some(Str(key))
            && (stored.None? || stored.value.status == Completed || stored.value.index >= size ==>
                  s == Snapshot(map[SESSION_KEY := Str(key)], 0, Active, None, None))
            && (stored.Some? && stored.value.status != Completed && stored.value.index < size ==>
                  s == stored.value.(data := s.data)
                  && forall k :: k != SESSION_KEY ==> Lookup(s.data, k) == Lookup(stored.value.data, k))
  {
  }

  /** A prompt that waits ends the run: the session stands behind it and waits for its field, the user gets the text. */
  lemma WaitingEndsRun(p: Program, w: World, event: Event, i: nat, s: Snapshot, r: StepResult)
    requires s.index < |p| && RunStep(p, w, event, i, s) == Ran(r, []) && r.mode == Waiting
    requires r.storeIn == None && r.next == None && r.clear == []
    ensures var reply := if r.rich.Some? then r.rich.value.text else r.prompt;
            StepOnce(p, w, event, i, s)
            == Halted(Snapshot(s.data, s.index + 1, WaitingInput, r.waitingFor, Some(r.prompt)),
                      RunResult(reply, r.rich, true, false, r.waitingFor, None))
  {
    assert Cleared(s.data, []) == s.data;
  }

  /** A done step ends the run with its filled message; past the end a run completes without one. */
  lemma DoneEndsRun(p: Program, w: World, event: Event, i: nat, s: Snapshot)
    requires s.index < |p| ==> p[s.index].Finish?
    ensures var reply := if s.index < |p| then Fill(p[s.index].message, w, s.data) else "";
            var next := if s.index < |p| then s.index + 1 else s.index;
            StepOnce(p, w, event, i, s)
            == Halted(Snapshot(s.data, next, Completed, None, None), RunResult(reply, None, false, true, None, None))
  {
    assert Cleared(s.data, []) == s.data;
  }

  /** A step that throws ends the run with its message and leaves data, position, field and prompt alone. */
  lemma ThrowEndsRun(p: Program, w: World, event: Event, i: nat, s: Snapshot)
    requires s.index < |p| && RunStep(p, w, event, i, s).Threw?
    ensures var c := StepOnce(p, w, event, i, s);
            && c == Halted(s.(status := Error), c.result) && !c.result.waiting && !c.result.completed
            && c.result.error == RunStep(p, w, event, i, s).message
            && c.result.rich == None && c.result.waitingFor == None
  {
  }

  /** A step that answers with an error ends the run with its message; what it stores is kept, its position too. */
  lemma ErrorEndsRun(p: Program, w: World, event: Event, i: nat, s: Snapshot, r: StepResult)
    requires s.index < |p| && RunStep(p, w, event, i, s).Ran? && RunStep(p, w, event, i, s).result == r
    requires r.mode == Failed && r.clear == []
    ensures var kept := r.storeIn.Some? && r.storeValue.Some?;
            var data := if kept then s.data[r.storeIn.value := r.storeValue.value] else s.data;
            StepOnce(p, w, event, i, s)
              == Halted(s.(data := data, status := Error), RunResult("", None, false, false, None, Some(r.message)))
  {
    var data := if r.storeIn.Some? && r.storeValue.Some? then s.data[r.storeIn.value := r.storeValue.value] else s.data;
    assert Cleared(data, []) == data;
  }

  /** What the actions of a run write, in the order of its steps. */
  function TraceWrites(p: Program, w: World, event: Event, ss: seq<Snapshot>, n: nat): seq<Write>
    requires n <= |ss|
  {
    if n == 0 then [] else
      TraceWrites(p, w, event, ss, n - 1)
      + if ss[n - 1].index < |p| then RunStep(p, w, event, n - 1, ss[n - 1]).writes else []
  }

  /** A run writes exactly what its executed steps write. */
  lemma {:induction false} RunWritesItsSteps(p: Program, w: World, event: Event, s: Snapshot, ss: seq<Snapshot>,
                                             end: RunEnd, n: nat)
    requires HaltingTrace(p, w, event, s, ss, end) && n < |ss|
    ensures WritesFrom(p, w, event, 0, s) == TraceWrites(p, w, event, ss, n) + WritesFrom(p, w, event, n, ss[n])
  {
    hide StepOnce, RunStep;
    if n > 0 {
      RunWritesItsSteps(p, w, event, s, ss, end, n - 1);
      assert StepOnce(p, w, event, n - 1, ss[n - 1]) == Running(ss[n]);
      var a, b := TraceWrites(p, w, event, ss, n - 1), StepWrites(p, w, event, n - 1, ss[n - 1]);
      assert a + (b + WritesFrom(p, w, event, n, ss[n])) == (a + b) + WritesFrom(p, w, event, n, ss[n]);
    }
  }

  lemma HaltingRunWrites(p: Program, w: World, event: Event, s: Snapshot, ss: seq<Snapshot>, end: RunEnd)
    requires HaltingTrace(p, w, event, s, ss, end)
    ensures WritesFrom(p, w, event, 0, s) == TraceWrites(p, w, event, ss, |ss|)
  {
    hide StepOnce, RunStep;
    var n := |ss| - 1;
    RunWritesItsSteps(p, w, event, s, ss, end, n);
    assert WritesFrom(p, w, event, n, ss[n]) == StepWrites(p, w, event, n, ss[n]) + [];
  }

  // ----- the fuelled loop refines the small-step relation -----

  ghost predicate IsTrace(p: Program, w: World, event: Event, s: Snapshot, ss: seq<Snapshot>)
  {
    && ss != [] && ss[0] == s
    && forall j :: 0 <= j < |ss| - 1 ==> StepOnce(p, w, event, j, ss[j]) == Running(ss[j + 1])
  }

  /** A trace of at most 100 configurations whose last one halts with the given end. */
  ghost predicate HaltingTrace(p: Program, w: World, event: Event, s: Snapshot, ss: seq<Snapshot>, end: RunEnd)
  {
    && IsTrace(p, w, event, s, ss) && |ss| <= STEP_LIMIT
    && StepOnce(p, w, event, |ss| - 1, ss[|ss| - 1]) == Halted(end.state, end.result)
  }

  /** A trace of 100 steps none of which halts. */
  ghost predicate LimitTrace(p: Program, w: World, event: Event, s: Snapshot, ss: seq<Snapshot>, end: RunEnd)
  {
    IsTrace(p, w, event, s, ss) && |ss| == STEP_LIMIT + 1 && end == LimitEnd(ss[STEP_LIMIT])
  }

  lemma {:induction false} TraceFixesRun(p: Program, w: World, event: Event, s: Snapshot, ss: seq<Snapshot>,
                                         end: RunEnd, i: nat)
    requires HaltingTrace(p, w, event, s, ss, end) || LimitTrace(p, w, event, s, ss, end)
    requires i < |ss|
    ensures RunFrom(p, w, event, i, ss[i]) == end
    decreases |ss| - i
  {
    if i < |ss| - 1 {
      TraceFixesRun(p, w, event, s, ss, end, i + 1);
    }
  }

  lemma {:induction false} RunLeavesTrace(p: Program, w: World, event: Event, s: Snapshot, prefix: seq<Snapshot>)
    returns (ss: seq<Snapshot>)
    requires IsTrace(p, w, event, s, prefix) && |prefix| <= STEP_LIMIT + 1
    ensures var end := RunFrom(p, w, event, |prefix| - 1, prefix[|prefix| - 1]);
            HaltingTrace(p, w, event, s, ss, end) || LimitTrace(p, w, event, s, ss, end)
    ensures prefix <= ss
    decreases STEP_LIMIT + 1 - |prefix|
  {
    var i, last := |prefix| - 1, prefix[|prefix| - 1];
    ss := prefix;
    if i < STEP_LIMIT {
      match StepOnce(p, w, event, i, last)
      case Halted(_, _) =>
      case Running(t) => ss := RunLeavesTrace(p, w, event, s, prefix + [t]);
    }
  }

  lemma {:induction false} TracesAgree(p: Program, w: World, event: Event, s: Snapshot,
                                       ss: seq<Snapshot>, tt: seq<Snapshot>, j: nat)
    requires IsTrace(p, w, event, s, ss) && IsTrace(p, w, event, s, tt)
    requires j < |ss| && j < |tt|
    ensures ss[j] == tt[j]
  {
    if j > 0 {
      TracesAgree(p, w, event, s, ss, tt, j - 1);
    }
  }

  /** A run from s ends in `end` exactly when the small-step relation halts there within 100 steps, or does not
      halt within 100 steps and `end` is the limit error; the two cases exclude each other. */
  lemma RunRefinesSmallSteps(p: Program, w: World, event: Event, s: Snapshot, end: RunEnd)
    ensures RunFrom(p, w, event, 0, s) == end
       <==> || (exists ss :: HaltingTrace(p, w, event, s, ss, end))
            || (exists ss :: LimitTrace(p, w, event, s, ss, end))
    ensures !((exists ss, e :: HaltingTrace(p, w, event, s, ss, e))
              && (exists ss, e :: LimitTrace(p, w, event, s, ss, e)))
  {
    if RunFrom(p, w, event, 0, s) == end {
      var ss := RunLeavesTrace(p, w, event, s, [s]);
    }
    forall ss | HaltingTrace(p, w, event, s, ss, end) || LimitTrace(p, w, event, s, ss, end)
      ensures RunFrom(p, w, event, 0, s) == end
    {
      TraceFixesRun(p, w, event, s, ss, end, 0);
    }
    forall ss, e, tt, f | HaltingTrace(p, w, event, s, ss, e) && LimitTrace(p, w, event, s, tt, f)
      ensures false
    {
      var n := |ss| - 1;
      assert StepOnce(p, w, event, n, tt[n]) == Running(tt[n + 1]);
      TracesAgree(p, w, event, s, ss, tt, |ss| - 1);
    }
  }

  // ----- what every run leaves in the store -----

  ghost predicate KeepsSessionKey(step: Step)
  {
    match step
    case AskInput(_, storeIn) => storeIn != SESSION_KEY
    case Capture(storeIn, _, _) => storeIn != SESSION_KEY
    case CallAction(_, _, target) => target != Some(SESSION_KEY)
    case Custom(run) => forall i, event, data, index ::
        var r := run(i, event, data, index); r.Ran? ==> r.result.storeIn != Some(SESSION_KEY)
    case _ => true
  }

  ghost predicate KeepsSessionKeys(p: Program)
  {
    forall j :: 0 <= j < |p| ==> KeepsSessionKey(p[j])
  }

  predicate HasSessionKey(s: Snapshot, key: string)
  {
    Lookup(s.data, SESSION_KEY) == Some(Str(key))
  }

  /** The stored status is never ACTIVE and says the same as the returned result. */
  predicate Truthful(end: RunEnd, key: string)
  {
    var s, r := end.state, end.result;
    && HasSessionKey(s, key)
    && s.status != Active
    && (s.status == WaitingInput <==> r.waiting)
    && (s.status == Completed <==> r.completed)
    && (s.status == Error <==> !r.waiting && !r.completed)
    && (r.waiting ==> s.waitingFor == r.waitingFor && s.pendingPrompt.Some?)
    && (r.completed ==> s.waitingFor == None && s.pendingPrompt == None)
  }

  lemma BranchStoresNothing(entries: seq<BranchEntry>, data: Data, index: nat)
    ensures var r := RunBranch(entries, data, index);
            r.storeIn == None && r.storeValue == None && r.mode == Continue && r.next.Some?
  {
  }

  lemma StepKeepsSessionKey(p: Program, w: World, event: Event, i: nat, s: Snapshot, key: string)
    requires KeepsSessionKeys(p) && HasSessionKey(s, key)
    ensures HasSessionKey(StepOnce(p, w, event, i, s).state, key)
  {
    if s.index < |p| {
      var step := p[s.index];
      assert KeepsSessionKey(step);
      if step.Branch? {
        BranchStoresNothing(step.entries, s.data, s.index);
      }
      if RunStep(p, w, event, i, s).Ran? {
        StoreThenClear(s, RunStep(p, w, event, i, s).result, SESSION_KEY);
      }
    }
  }

  lemma HaltIsTruthful(p: Program, w: World, event: Event, i: nat, s: Snapshot, key: string)
    requires StepOnce(p, w, event, i, s).Halted? && HasSessionKey(StepOnce(p, w, event, i, s).state, key)
    ensures var c := StepOnce(p, w, event, i, s); Truthful(RunEnd(c.state, c.result), key)
  {
    hide Execute;
  }

  lemma {:induction false} RunFromIsTruthful(p: Program, w: World, event: Event, i: nat, s: Snapshot, key: string)
    requires KeepsSessionKeys(p) && HasSessionKey(s, key) && i <= STEP_LIMIT
    ensures Truthful(RunFrom(p, w, event, i, s), key)
    decreases STEP_LIMIT - i
  {
    hide StepOnce, KeepsSessionKeys;
    if i < STEP_LIMIT {
      StepKeepsSessionKey(p, w, event, i, s, key);
      match StepOnce(p, w, event, i, s)
      case Halted(_, _) => HaltIsTruthful(p, w, event, i, s, key);
      case Running(t) => RunFromIsTruthful(p, w, event, i + 1, t, key);
    }
  }

  /** Persistence is truthful after every run, from any stored state. */
  lemma RunIsTruthful(p: Program, w: World, event: Event, key: string, stored: Option<Snapshot>)
    requires KeepsSessionKeys(p)
    ensures Truthful(Run(p, w, event, key, stored), key)
  {
    RunFromIsTruthful(p, w, event, 0, Enter(stored, key, |p|), key);
  }

  /** Does the step at s throw or answer with an error? */
  predicate StepFails(p: Program, w: World, event: Event, i: nat, s: Snapshot)
  {
    s.index < |p| && match RunStep(p, w, event, i, s) case Threw(_, _) => true case Ran(r, _) => r.mode == Failed
  }

  /** A failing step keeps its index: the stored session is in error and the next run, whatever its event,
      starts by executing that very step on the same data. */
  lemma FailedStepIsRetried(p: Program, w: World, event: Event, key: string, stored: Option<Snapshot>,
                            ss: seq<Snapshot>, w2: World, event2: Event)
    requires KeepsSessionKeys(p)
    requires IsTrace(p, w, event, Enter(stored, key, |p|), ss) && |ss| <= STEP_LIMIT
    requires StepFails(p, w, event, |ss| - 1, ss[|ss| - 1])
    ensures var end := Run(p, w, event, key, stored);
            && end.state.status == Error && !end.result.waiting && !end.result.completed
            && end.state.index == ss[|ss| - 1].index
            && Enter(Some(end.state), key, |p|) == end.state
            && Run(p, w2, event2, key, Some(end.state)) == RunFrom(p, w2, event2, 0, end.state)
  {
    var start, last := Enter(stored, key, |p|), ss[|ss| - 1];
    var c := StepOnce(p, w, event, |ss| - 1, last);
    TraceFixesRun(p, w, event, start, ss, RunEnd(c.state, c.result), 0);
    RunIsTruthful(p, w, event, key, stored);
    assert c.state.data == c.state.data[SESSION_KEY := Str(key)];
  }
}
