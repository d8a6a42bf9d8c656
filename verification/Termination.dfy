/** Programs with backward jumps: a structural condition under which one run takes at most size+1 iterations, so
    that the step limit is unreachable from any stored session. */
module Termination {
  import opened Text
  import opened WorkflowModel
  import opened Steps
  import opened Interpreter

  /** The entry jumps to a prompt whose answer it clears, so the run stops there. */
  predicate Reasks(p: Program, e: BranchEntry)
  {
    && 0 <= e.next < |p| && p[e.next].Prompt?
    && p[e.next].storeIn in e.clear && p[e.next].storeIn != SESSION_KEY
  }

  predicate Disciplined(p: Program, at: nat, step: Step)
  {
    match step
    case Branch(entries) => forall j :: 0 <= j < |entries| ==>
        entries[j].next < 0 || entries[j].next > at || Reasks(p, entries[j])
    case Custom(_) => false
    case _ => true
  }

  /** Every branch entry jumps strictly forward or re-asks a prompt it clears. */
  predicate WellStructured(p: Program)
  {
    forall j :: 0 <= j < |p| ==> Disciplined(p, j, p[j])
  }

  /** The next step is a prompt without an answer. */
  predicate AtOpenPrompt(p: Program, s: Snapshot)
  {
    s.index < |p| && p[s.index].Prompt? && p[s.index].storeIn !in s.data
  }

  lemma {:induction false} BranchTarget(p: Program, at: nat, entries: seq<BranchEntry>, data: Data)
    requires forall j :: 0 <= j < |entries| ==> entries[j].next < 0 || entries[j].next > at || Reasks(p, entries[j])
    ensures var r := RunBranch(entries, data, at);
            && r.mode == Continue && r.next.Some?
            && (r.next.value > at
                || (r.next.value < |p| && p[r.next.value].Prompt?
                    && p[r.next.value].storeIn in r.clear && p[r.next.value].storeIn != SESSION_KEY))
  {
    if entries != [] && !Matches(entries[0], data) {
      BranchTarget(p, at, entries[1..], data);
    }
  }

  /** A step that does not halt moves strictly forward or arrives at an open prompt. */
  lemma StepMovesOn(p: Program, w: World, event: Event, i: nat, s: Snapshot)
    requires WellStructured(p)
    ensures var c := StepOnce(p, w, event, i, s);
            c.Running? ==> s.index < |p| && (c.state.index > s.index || AtOpenPrompt(p, c.state))
  {
    if s.index < |p| {
      var step := p[s.index];
      assert Disciplined(p, s.index, step);
      if step.Branch? {
        BranchTarget(p, s.index, step.entries, s.data);
        var r := RunBranch(step.entries, s.data, s.index);
        if r.next.value <= s.index {
          StoreThenClear(s, r, p[r.next.value].storeIn);
        }
      }
    }
  }

  lemma OpenPromptHalts(p: Program, w: World, event: Event, i: nat, s: Snapshot)
    requires AtOpenPrompt(p, s)
    ensures StepOnce(p, w, event, i, s).Halted?
  {
  }

  /** The remaining iterations from a state: to the end of the program, or one at an open prompt. */
  function Budget(p: Program, s: Snapshot): nat
  {
    if AtOpenPrompt(p, s) || s.index >= |p| then 1 else |p| - s.index + 1
  }

  lemma {:induction false} TraceToHalt(p: Program, w: World, event: Event, s: Snapshot, prefix: seq<Snapshot>)
    returns (ss: seq<Snapshot>)
    requires WellStructured(p) && IsTrace(p, w, event, s, prefix)
    ensures IsTrace(p, w, event, s, ss) && StepOnce(p, w, event, |ss| - 1, ss[|ss| - 1]).Halted?
    ensures |ss| <= |prefix| - 1 + Budget(p, prefix[|prefix| - 1])
    decreases Budget(p, prefix[|prefix| - 1])
  {
    var i, last := |prefix| - 1, prefix[|prefix| - 1];
    ss := prefix;
    match StepOnce(p, w, event, i, last)
    case Halted(_, _) =>
    case Running(t) =>
      StepMovesOn(p, w, event, i, last);
      if AtOpenPrompt(p, last) {
        OpenPromptHalts(p, w, event, i, last);
      }
      ss := TraceToHalt(p, w, event, s, prefix + [t]);
  }

  /** A run of a well structured program halts within size+1 iterations, whatever the session, the event and the
      world's answers. */
  lemma RunHaltsWithinSize(p: Program, w: World, event: Event, s: Snapshot)
    ensures WellStructured(p) ==>
      exists ss :: IsTrace(p, w, event, s, ss) && |ss| <= |p| + 1
                   && StepOnce(p, w, event, |ss| - 1, ss[|ss| - 1]).Halted?
  {
    if WellStructured(p) {
      var ss := TraceToHalt(p, w, event, s, [s]);
    }
  }

  /** With at most 99 steps the limit is unreachable: every run ends where the small-step relation halts. */
  lemma LimitUnreachable(p: Program, w: World, event: Event, key: string, stored: Option<Snapshot>)
    requires WellStructured(p) && |p| < STEP_LIMIT
    ensures var start := Enter(stored, key, |p|);
            && (exists ss :: HaltingTrace(p, w, event, start, ss, Run(p, w, event, key, stored)))
            && !(exists ss, end :: LimitTrace(p, w, event, start, ss, end))
  {
    var start := Enter(stored, key, |p|);
    var ss := TraceToHalt(p, w, event, start, [start]);
    var c := StepOnce(p, w, event, |ss| - 1, ss[|ss| - 1]);
    var end := RunEnd(c.state, c.result);
    assert HaltingTrace(p, w, event, start, ss, end);
    TraceFixesRun(p, w, event, start, ss, end, 0);
    assert Run(p, w, event, key, stored) == end;
    RunRefinesSmallSteps(p, w, event, start, end);
  }

  // ----- both bounds are tight -----

  function Captures(n: nat): Program
  {
    seq(n, _ => Capture("x", None, false))
  }

  lemma {:induction false} CapturesRun(n: nat, w: World, event: Event, i: nat, s: Snapshot)
    requires i <= STEP_LIMIT && i <= n && s.index == i
    ensures var end := RunFrom(Captures(n), w, event, i, s);
            if n < STEP_LIMIT then end.result == CompletedWith("") else end.result == FailedWith(Some(LIMIT_MESSAGE))
    decreases STEP_LIMIT - i
  {
    if i < STEP_LIMIT && i < n {
      CapturesRun(n, w, event, i + 1, StepOnce(Captures(n), w, event, i, s).state);
    }
  }

  /** 99 is exact: a straight line of capture steps, which is well structured, ends in the limit error on a new
      session exactly when it has 100 steps or more. */
  lemma NinetyNineIsExact(n: nat, w: World, event: Event, key: string)
    requires n > 0
    ensures WellStructured(Captures(n))
    ensures Run(Captures(n), w, event, key, None).result.error == Some(LIMIT_MESSAGE) <==> n >= STEP_LIMIT
  {
    CapturesRun(n, w, event, 0, Enter(None, key, n));
  }

  const SPIN: Program := [Branch([BranchEntry(Else, 0, [])])]

  lemma {:induction false} SpinRun(w: World, event: Event, i: nat, s: Snapshot)
    requires i <= STEP_LIMIT && s.index == 0
    ensures RunFrom(SPIN, w, event, i, s).result == FailedWith(Some(LIMIT_MESSAGE))
    decreases STEP_LIMIT - i
  {
    if i < STEP_LIMIT {
      var c := StepOnce(SPIN, w, event, i, s);
      assert RunBranch([BranchEntry(Else, 0, [])], s.data, 0) == GoTo(0, []);
      SpinRun(w, event, i + 1, c.state);
    }
  }

  /** The condition is needed: one backward jump that clears nothing exhausts the limit on every event. */
  lemma BackwardJumpSpins(w: World, event: Event, key: string)
    ensures !WellStructured(SPIN)
    ensures Run(SPIN, w, event, key, None).result == FailedWith(Some(LIMIT_MESSAGE))
  {
    assert !Disciplined(SPIN, 0, SPIN[0]) by {
      assert !Reasks(SPIN, SPIN[0].entries[0]);
    }
    SpinRun(w, event, 0, Enter(None, key, 1));
  }
}
