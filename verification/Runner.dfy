/** The mutable side of the interpreter: session state objects updated in place, the shared state store, and the
    runner whose loop is proved to compute Interpreter.Run and to touch nothing but its own session. */
module Runner {
  import opened Text
  import opened WorkflowModel
  import opened Steps
  import opened Interpreter
  import SessionKeys

  class WorkflowState {
    var data: Data
    var stepIndex: nat
    var status: Status
    var waitingForField: Option<string>
    var pendingPrompt: Option<string>

    function Snap(): Snapshot
      reads this
    {
      Snapshot(data, stepIndex, status, waitingForField, pendingPrompt)
    }

    constructor ()
      ensures Snap() == FRESH
    {
      data, stepIndex, status, waitingForField, pendingPrompt := map[], 0, Active, None, None;
    }

    method SetStepIndex(index: nat)
      modifies this
      ensures Snap() == old(Snap()).(index := index)
    {
      stepIndex := index;
    }

    method SetActive()
      modifies this
      ensures Snap() == MarkActive(old(Snap()))
    {
      status, waitingForField, pendingPrompt := Active, None, None;
    }

    method SetWaiting(field: Option<string>, prompt: string)
      modifies this
      ensures Snap() == MarkWaiting(old(Snap()), field, prompt)
    {
      status, waitingForField, pendingPrompt := WaitingInput, field, Some(prompt);
    }

    method SetCompleted()
      modifies this
      ensures Snap() == MarkCompleted(old(Snap()))
    {
      status, waitingForField, pendingPrompt := Completed, None, None;
    }

    method SetError()
      modifies this
      ensures Snap() == MarkError(old(Snap()))
    {
      status := Error;
    }

    method ResetForNewRun()
      modifies this
      ensures Snap() == FRESH
    {
      data, stepIndex, status, waitingForField, pendingPrompt := map[], 0, Active, None, None;
    }

    method Put(key: string, value: Value)
      modifies this
      ensures Snap() == old(Snap()).(data := old(data)[key := value])
    {
      data := data[key := value];
    }

    /** Removes the keys one by one, skipping the session key. */
    method ClearKeys(keys: seq<string>)
      modifies this
      ensures Snap() == old(Snap()).(data := Cleared(old(data), keys))
    {
      for i := 0 to |keys|
        invariant Snap() == old(Snap()).(data := Cleared(old(data), keys[..i]))
      {
        assert forall k :: k in keys[..i + 1] <==> k in keys[..i] || k == keys[i];
        if keys[i] != SESSION_KEY {
          data := data - {keys[i]};
        }
        assert data == Cleared(old(data), keys[..i + 1]);
      }
      assert keys[..|keys|] == keys;
    }
  }

  datatype Entry = Session(state: WorkflowState) | Foreign(write: Write)

  /** What an entry looks like to a reader. */
  datatype Item = Saved(state: Snapshot) | Wrote(write: Write)

  type StoreView = map<string, Item>

  function SavedAt(view: StoreView, key: string): Option<Snapshot>
  {
    if key in view && view[key].Saved? then Some(view[key].state) else None
  }

  function WriteAll(view: StoreView, writes: seq<Write>): StoreView
    decreases |writes|
  {
    if writes == [] then view
    else WriteAll(view[SessionKeys.WriteKey(writes[0]) := Wrote(writes[0])], writes[1..])
  }

  /** The i-th write is the last one under this key. */
  predicate LastUnderKey(writes: seq<Write>, i: nat, key: string)
    requires i < |writes|
  {
    SessionKeys.WriteKey(writes[i]) == key && forall j :: i < j < |writes| ==> SessionKeys.WriteKey(writes[j]) != key
  }

  /** After some writes a key holds the last one under it, or what it held before. */
  lemma {:induction false} WriteAllReads(view: StoreView, writes: seq<Write>, key: string)
    ensures var after := WriteAll(view, writes);
            && (forall i :: 0 <= i < |writes| && LastUnderKey(writes, i, key) ==>
                  key in after && after[key] == Wrote(writes[i]))
            && ((forall i :: 0 <= i < |writes| ==> SessionKeys.WriteKey(writes[i]) != key) ==>
                  (key in after <==> key in view) && (key in view ==> after[key] == view[key]))
    decreases |writes|
  {
    hide SessionKeys.WriteKey;
    if writes != [] {
      var rest, w := writes[1..], writes[0];
      var next := view[SessionKeys.WriteKey(w) := Wrote(w)];
      WriteAllReads(next, rest, key);
      forall i | 0 <= i < |writes| && LastUnderKey(writes, i, key)
        ensures key in WriteAll(view, writes) && WriteAll(view, writes)[key] == Wrote(writes[i])
      {
        if i > 0 {
          assert rest[i - 1] == writes[i] && LastUnderKey(rest, i - 1, key);
        } else {
          assert forall j :: 0 <= j < |rest| ==> rest[j] == writes[j + 1];
        }
      }
      assert forall j :: 0 <= j < |rest| ==> rest[j] == writes[j + 1];
    }
  }

  lemma {:induction false} WriteAllAppend(view: StoreView, a: seq<Write>, b: seq<Write>)
    ensures WriteAll(view, a + b) == WriteAll(WriteAll(view, a), b)
    decreases |a|
  {
    if a == [] {
      assert a + b == b;
    } else {
      assert (a + b)[1..] == a[1..] + b;
      WriteAllAppend(view[SessionKeys.WriteKey(a[0]) := Wrote(a[0])], a[1..], b);
    }
  }

  class StateStore {
    var table: map<string, Entry>

    ghost function States(): set<WorkflowState>
      reads this
    {
      set k | k in table && table[k].Session? :: table[k].state
    }

    /** No session object is stored under two keys. */
    ghost predicate Valid()
      reads this
    {
      forall j, k |
          j in table && k in table && table[j].Session? && table[k].Session? && table[j].state == table[k].state
        :: j == k
    }

    ghost function View(): StoreView
      reads this, States()
    {
      map k | k in table :: match table[k] case Session(state) => Saved(state.Snap()) case Foreign(w) => Wrote(w)
    }

    ghost function OtherStates(key: string): set<WorkflowState>
      reads this
    {
      set k | k in table && k != key && table[k].Session? :: table[k].state
    }

    /** Everything except one key. */
    ghost function Others(key: string): StoreView
      reads this, OtherStates(key)
    {
      map k | k in table && k != key ::
        match table[k] case Session(state) => Saved(state.Snap()) case Foreign(w) => Wrote(w)
    }

    constructor ()
      ensures Valid() && View() == map[]
    {
      table := map[];
    }

    /** get(key, ConfigurableWorkflowState.class): other kinds of entries count as absent. */
    method Get(key: string) returns (found: Option<WorkflowState>)
      ensures found.None? <==> SavedAt(View(), key).None?
      ensures found.Some? ==> key in table && table[key] == Session(found.value)
      ensures found.Some? ==> SavedAt(View(), key) == Some(found.value.Snap())
    {
      found := if key in table && table[key].Session? then Some(table[key].state) else None;
    }

    /** The state object is the one of this key, or of no key yet. */
    ghost predicate Owns(key: string, state: WorkflowState)
      reads this
    {
      Valid() && state !in OtherStates(key)
    }

    method Put(key: string, state: WorkflowState)
      requires Owns(key, state)
      modifies this
      ensures Owns(key, state) && States() <= old(States()) + {state}
      ensures View() == old(Others(key))[key := Saved(state.Snap())]
      ensures Others(key) == old(Others(key))
    {
      table := table[key := Session(state)];
    }

    method PutWrite(w: Write, ghost key: string, ghost state: WorkflowState)
      requires Owns(key, state) && SessionKeys.WriteKey(w) != key
      modifies this
      ensures Owns(key, state) && States() <= old(States())
      ensures Others(key) == old(Others(key))[SessionKeys.WriteKey(w) := Wrote(w)]
    {
      table := table[SessionKeys.WriteKey(w) := Foreign(w)];
    }

    /** What an action leaves in the store; the running session is not among the keys. */
    method Publish(writes: seq<Write>, ghost key: string, ghost state: WorkflowState)
      requires Owns(key, state)
      requires forall w :: SessionKeys.WriteKey(w) != key
      modifies this
      ensures Owns(key, state) && States() <= old(States())
      ensures Others(key) == WriteAll(old(Others(key)), writes)
    {
      for i := 0 to |writes|
        invariant Owns(key, state) && States() <= old(States())
        invariant Others(key) == WriteAll(old(Others(key)), writes[..i])
      {
        assert writes[..i + 1] == writes[..i] + [writes[i]];
        WriteAllAppend(old(Others(key)), writes[..i], [writes[i]]);
        PutWrite(writes[i], key, state);
      }
      assert writes[..|writes|] == writes;
    }
  }

  function Resolved(bind: map<string, Value>, data: Data, keys: set<string>): Args
  {
    map k | k in bind && k in keys :: Resolve(bind[k], data)
  }

  lemma ResolveOneMore(base: Args, bind: map<string, Value>, data: Data, keys: set<string>, key: string)
    requires key in bind
    ensures (base + Resolved(bind, data, keys))[key := Resolve(bind[key], data)]
         == base + Resolved(bind, data, keys + {key})
  {
  }

  /** The argument map of call_action, filled entry by entry. */
  method FillArgs(bind: map<string, Value>, event: Event, data: Data) returns (args: Args)
    ensures args == BuildArgs(bind, event, data)
  {
    args := (map k | k in data :: Val(data[k])) + map["__event" := Meta(EventMetadata(event))];
    ghost var base := args;
    var todo, done := bind.Keys, {};
    while todo != {}
      invariant todo + done == bind.Keys
      invariant args == base + Resolved(bind, data, done)
      decreases todo
    {
      var key :| key in todo;
      ResolveOneMore(base, bind, data, done, key);
      args := args[key := Resolve(bind[key], data)];
      todo, done := todo - {key}, done + {key};
    }
    assert Resolved(bind, data, done) == map k | k in bind :: Resolve(bind[k], data);
  }

  /** What one iteration contributes to a run and to its writes. */
  lemma OneStepOfRun(p: Program, w: World, event: Event, i: nat, s: Snapshot, view: StoreView)
    requires i < STEP_LIMIT
    ensures var c := StepOnce(p, w, event, i, s);
            var published := WriteAll(view, StepWrites(p, w, event, i, s));
            && RunFrom(p, w, event, i, s)
                 == (if c.Halted? then RunEnd(c.state, c.result) else RunFrom(p, w, event, i + 1, c.state))
            && WriteAll(view, WritesFrom(p, w, event, i, s))
               == (if c.Halted? then published else WriteAll(published, WritesFrom(p, w, event, i + 1, c.state)))
  {
    var c, now := StepOnce(p, w, event, i, s), StepWrites(p, w, event, i, s);
    if c.Halted? {
      assert WritesFrom(p, w, event, i, s) == now + [] == now;
    } else {
      WriteAllAppend(view, now, WritesFrom(p, w, event, i + 1, c.state));
    }
  }

  class WorkflowRunner {
    const steps: seq<Step>
    const strategy: Option<string>

    constructor (steps: seq<Step>, strategy: Option<string>)
      ensures this.steps == steps && this.strategy == strategy
    {
      this.steps, this.strategy := steps, strategy;
    }

    function Key(botId: string, event: Event): string
    {
      SessionKeys.SessionKey(strategy, botId, event)
    }

    /** The session to run: the saved object or a new one, restarted when its last run completed. */
    method Open(store: StateStore, key: string) returns (state: WorkflowState)
      requires store.Valid()
      modifies store.States()
      ensures store.Owns(key, state) && (state in store.States() || fresh(state))
      ensures store.table == old(store.table)
      ensures store.Others(key) == old(store.Others(key))
      ensures state.Snap() == Enter(SavedAt(old(store.View()), key), key, |steps|)
    {
      hide SavedAt;
      var found := store.Get(key);
      if found.Some? {
        state := found.value;
      } else {
        state := new WorkflowState();
      }
      state.Put(SESSION_KEY, Str(key));
      if state.status == Completed || state.stepIndex >= |steps| {
        state.ResetForNewRun();
        state.Put(SESSION_KEY, Str(key));
      }
    }

    /** Applies a step's answer to the session object: store, clear, then mark and advance. */
    method Accept(r: StepResult, state: WorkflowState) returns (end: Option<RunResult>)
      modifies state
      ensures state.Snap() == Apply(old(state.Snap()), r).state
      ensures end == ResultOf(Apply(old(state.Snap()), r))
    {
      if r.storeIn.Some? && r.storeValue.Some? {
        state.Put(r.storeIn.value, r.storeValue.value);
      }
      var next := if r.next.Some? then r.next.value else state.stepIndex + 1;
      if r.clear != [] {
        state.ClearKeys(r.clear);
      } else {
        assert state.data == Cleared(state.data, r.clear);
      }
      match r.mode {
        case Waiting =>
          state.SetWaiting(r.waitingFor, r.prompt);
          state.SetStepIndex(next);
          end := Some(WaitingResult(r));
        case Complete =>
          state.SetCompleted();
          state.SetStepIndex(next);
          end := Some(CompletedResult(r));
        case Failed =>
          state.SetError();
          end := Some(FailedWith(Some(r.message)));
        case Continue =>
          state.SetActive();
          state.SetStepIndex(next);
          end := None;
      }
    }

    /** Lets the actions' writes and the step's answer take effect. Every halting step persists the session. */
    method Settle(run: StepRun, store: StateStore, key: string, state: WorkflowState) returns (end: Option<RunResult>)
      requires store.Owns(key, state)
      requires forall w :: SessionKeys.WriteKey(w) != key
      modifies store, state
      ensures store.Owns(key, state) && store.States() <= old(store.States()) + {state}
      ensures state.Snap() == ApplyRun(old(state.Snap()), run).state
      ensures end == ResultOf(ApplyRun(old(state.Snap()), run))
      ensures store.Others(key) == WriteAll(old(store.Others(key)), run.writes)
      ensures end.Some? ==> store.View() == store.Others(key)[key := Saved(state.Snap())]
    {
      store.Publish(run.writes, key, state);
      match run {
        case Threw(message, _) =>
          state.SetError();
          end := Some(FailedWith(message));
        case Ran(r, _) =>
          end := Accept(r, state);
      }
      if end.Some? {
        store.Put(key, state);
      }
    }

    /** One iteration of the loop. */
    method Iterate(event: Event, world: World, store: StateStore, key: string, state: WorkflowState, i: nat)
      returns (end: Option<RunResult>)
      requires store.Owns(key, state)
      requires forall w :: SessionKeys.WriteKey(w) != key
      modifies store, state
      ensures store.Owns(key, state) && store.States() <= old(store.States()) + {state}
      ensures state.Snap() == StepOnce(steps, world, event, i, old(state.Snap())).state
      ensures end == ResultOf(StepOnce(steps, world, event, i, old(state.Snap())))
      ensures store.Others(key)
           == WriteAll(old(store.Others(key)), StepWrites(steps, world, event, i, old(state.Snap())))
      ensures end.Some? ==> store.View() == store.Others(key)[key := Saved(state.Snap())]
    {
      if state.stepIndex >= |steps| {
        state.SetCompleted();
        store.Put(key, state);
        return Some(CompletedWith(""));
      }
      var run := Execute(steps[state.stepIndex], world, i, event, state.data, state.stepIndex);
      end := Settle(run, store, key, state);
    }

    /** At most 100 iterations. */
    method Loop(event: Event, world: World, store: StateStore, key: string, state: WorkflowState)
      returns (result: RunResult)
      requires store.Owns(key, state)
      requires forall w :: SessionKeys.WriteKey(w) != key
      modifies store, state
      ensures store.Valid() && store.States() <= old(store.States()) + {state}
      ensures result == RunFrom(steps, world, event, 0, old(state.Snap())).result
      ensures store.View() == WriteAll(old(store.Others(key)), WritesFrom(steps, world, event, 0, old(state.Snap())))
                              [key := Saved(RunFrom(steps, world, event, 0, old(state.Snap())).state)]
    {
      ghost var start, others := state.Snap(), store.Others(key);
      var i := 0;
      while i < STEP_LIMIT
        invariant 0 <= i <= STEP_LIMIT
        invariant store.Owns(key, state) && store.States() <= old(store.States()) + {state}
        invariant RunFrom(steps, world, event, i, state.Snap()) == RunFrom(steps, world, event, 0, start)
        invariant WriteAll(store.Others(key), WritesFrom(steps, world, event, i, state.Snap()))
               == WriteAll(others, WritesFrom(steps, world, event, 0, start))
      {
        OneStepOfRun(steps, world, event, i, state.Snap(), store.Others(key));
        var end := Iterate(event, world, store, key, state, i);
        if end.Some? {
          return end.value;
        }
        i := i + 1;
      }
      state.SetError();
      store.Put(key, state);
      return FailedWith(Some(LIMIT_MESSAGE));
    }

    /** One run for one event. The result and the saved session are Interpreter.Run of the session saved under the
        event's key; all other keys change only by what the actions published. */
    method RunResult(event: Event, world: World, store: StateStore, botId: string) returns (result: RunResult)
      requires store.Valid()
      modifies store, store.States()
      ensures store.Valid() && fresh(store.States() - old(store.States()))
      ensures steps == [] ==> result == CompletedWith("") && store.View() == old(store.View())
      ensures steps != [] ==>
        var key := Key(botId, event);
        var start := Enter(SavedAt(old(store.View()), key), key, |steps|);
        var end := Run(steps, world, event, key, SavedAt(old(store.View()), key));
        && result == end.result
        && store.View() == WriteAll(old(store.Others(key)), WritesFrom(steps, world, event, 0, start))
                           [key := Saved(end.state)]
    {
      if steps == [] {
        return CompletedWith("");
      }
      var key := Key(botId, event);
      forall w ensures SessionKeys.WriteKey(w) != key {
        SessionKeys.WritesMissSessions(w, strategy, botId, event);
      }
      var state := Open(store, key);
      result := Loop(event, world, store, key, state);
    }
  }
}
