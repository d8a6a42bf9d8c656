/** Safety of luna_cursor in a busy system: one of its sessions among any number of sessions and bots over one store. */
module LunaAmongOthers {
  import opened Text
  import opened WorkflowModel
  import opened Interpreter
  import opened Runner
  import opened Isolation
  import opened BotsConfig
  import Luna = LunaHistory

  // ----- the session's own events -----

  lemma {:induction false} OwnAppend(a: seq<Input>, b: seq<Input>, key: string)
    ensures Own(a + b, key) == Own(a, key) + Own(b, key)
    decreases |a|
  {
    hide SessionKeys.SessionKey;
    if a == [] {
      assert a + b == b;
    } else {
      var first := if a[0].Key() == key then [a[0]] else [];
      assert (a + b)[1..] == a[1..] + b && (a + b)[0] == a[0];
      OwnAppend(a[1..], b, key);
      assert first + (Own(a[1..], key) + Own(b, key)) == (first + Own(a[1..], key)) + Own(b, key);
    }
  }

  /** Where the session's a-th event stands in the interleaving. */
  lemma {:induction false} OwnPosition(xs: seq<Input>, key: string, a: nat) returns (p: nat)
    requires a < |Own(xs, key)|
    ensures p < |xs| && xs[p].Key() == key && xs[p] == Own(xs, key)[a] && Own(xs[..p], key) == Own(xs, key)[..a]
    decreases |xs|
  {
    hide SessionKeys.SessionKey;
    if xs[0].Key() == key && a == 0 {
      p := 0;
    } else {
      var own := if xs[0].Key() == key then 1 else 0;
      var q := OwnPosition(xs[1..], key, a - own);
      p := q + 1;
      assert xs[..p][1..] == xs[1..][..q] && xs[..p][0] == xs[0];
      assert Own(xs, key)[own..] == Own(xs[1..], key);
    }
  }

  lemma OwnPositionsAscend(xs: seq<Input>, key: string, p: nat, q: nat)
    requires p <= |xs| && q <= |xs| && |Own(xs[..p], key)| < |Own(xs[..q], key)|
    ensures p < q
  {
    if q <= p {
      assert xs[..p] == xs[..q] + xs[q..p];
      OwnAppend(xs[..q], xs[q..p], key);
    }
  }

  lemma {:induction false} OwnHasKey(xs: seq<Input>, key: string, a: nat)
    requires a < |Own(xs, key)|
    ensures Own(xs, key)[a] in xs && Own(xs, key)[a].Key() == key
  {
    var p := OwnPosition(xs, key, a);
  }

  // ----- the session alone, as a luna_cursor history -----

  function HistoryOf(os: seq<Input>): Luna.History
  {
    seq(|os|, i requires 0 <= i < |os| => Luna.Input(os[i].event, os[i].world))
  }

  lemma {:induction false} DeliverAllSnoc(view: StoreView, xs: seq<Input>, x: Input)
    ensures DeliverAll(view, xs + [x]) == Deliver(DeliverAll(view, xs), x)
    decreases |xs|
  {
    hide Deliver;
    if xs == [] {
      assert xs + [x] == [x] && [x][1..] == [];
    } else {
      assert (xs + [x])[1..] == xs[1..] + [x];
      DeliverAllSnoc(Deliver(view, xs[0]), xs[1..], x);
    }
  }

  lemma {:induction false} AfterPrefix(key: string, h: Luna.History, more: Luna.History, n: nat)
    requires n <= |h|
    ensures Luna.After(key, h + more, n) == Luna.After(key, h, n)
  {
    hide Run, LunaCursor;
    if n > 0 {
      AfterPrefix(key, h, more, n - 1);
    }
  }

  /** All events are of the luna_cursor session with this key. */
  ghost predicate OfSession(os: seq<Input>, key: string)
  {
    forall i :: 0 <= i < |os| ==> os[i].Key() == key && os[i].program == LunaCursor()
  }

  lemma DeliverSaves(view: StoreView, x: Input)
    requires x.program == LunaCursor()
    ensures SavedAt(Deliver(view, x), x.Key())
         == Some(Run(LunaCursor(), x.world, x.event, x.Key(), SavedAt(view, x.Key())).state)
  {
    hide Run, WriteAll, WritesFrom, SessionKeys.SessionKey;
  }

  lemma {:induction false} AloneIsHistory(view: StoreView, os: seq<Input>, key: string)
    requires OfSession(os, key) && SavedAt(view, key) == None
    ensures SavedAt(DeliverAll(view, os), key) == Luna.After(key, HistoryOf(os), |os|)
  {
    hide Run, Deliver, LunaCursor, SavedAt, SessionKeys.SessionKey;
    if os != [] {
      var n := |os| - 1;
      var before, x := os[..n], os[n];
      AloneIsHistory(view, before, key);
      assert os == before + [x];
      DeliverAllSnoc(view, before, x);
      DeliverSaves(DeliverAll(view, before), x);
      assert HistoryOf(os) == HistoryOf(before) + [Luna.Input(x.event, x.world)];
      AfterPrefix(key, HistoryOf(before), [Luna.Input(x.event, x.world)], n);
    }
  }

  // ----- the session among others -----

  /** A new session runs luna_cursor: whatever bot an event of its key reaches runs that program, with its actions
      registered. */
  ghost predicate RunsLuna(xs: seq<Input>, key: string)
  {
    forall i :: 0 <= i < |xs| && xs[i].Key() == key ==>
      xs[i].program == LunaCursor() && Luna.RegistryOnly(xs[i].world)
  }

  /** The state in which x is served after the interleaving ys is the one in which the session alone would stand. */
  lemma BeginsAsAlone(view: StoreView, ys: seq<Input>, x: Input)
    requires SavedAt(view, x.Key()) == None && RunsLuna(ys, x.Key()) && x.program == LunaCursor()
    ensures var h := HistoryOf(Own(ys, x.Key()));
            Begin(DeliverAll(view, ys), x) == Enter(Luna.After(x.Key(), h, |h|), x.Key(), Luna.STEPS)
  {
    hide DeliverAll, LunaCursor, SessionKeys.SessionKey, Luna.After, Luna.RegistryOnly;
    var key := x.Key();
    var os := Own(ys, key);
    SessionsDoNotInterfere(view, ys, x);
    forall i | 0 <= i < |os| ensures os[i].Key() == key && os[i].program == LunaCursor() {
      OwnHasKey(ys, key, i);
    }
    var alone := if key in view then map[key := view[key]] else map[];
    AloneIsHistory(alone, os, key);
  }

  /** The run of x, served after the interleaving ys, executes the step at the given position on the given data. */
  ghost predicate ExecutesOn(view: StoreView, ys: seq<Input>, x: Input, position: nat, data: Data)
  {
    exists j: nat :: var t := Luna.StateAt(LunaCursor(), x.world, x.event, Begin(DeliverAll(view, ys), x), j);
      t.Some? && t.value.index == position && t.value.data == data
  }

  ghost predicate ExecutesAt(view: StoreView, xs: seq<Input>, p: nat, position: nat)
    requires p < |xs|
  {
    exists data :: ExecutesOn(view, xs[..p], xs[p], position, data)
  }

  /** The p-th event of the interleaving is the session's, and the text is what it answered to a capture step at one of
      the given positions. */
  ghost predicate CapturedAt(view: StoreView, xs: seq<Input>, p: nat, key: string, positions: set<nat>,
                             value: Option<Value>)
    requires p < |xs|
  {
    && xs[p].Key() == key && value == Some(Str(Luna.Content(xs[p].event)))
    && exists position :: position in positions && ExecutesAt(view, xs, p, position)
  }

  /** The session's a-th run, seen in the interleaving. */
  lemma OwnRunExecutes(view: StoreView, ys: seq<Input>, x: Input, h: Luna.History, a: nat, position: nat)
    returns (p: nat)
    requires SavedAt(view, x.Key()) == None && RunsLuna(ys, x.Key())
    requires a < |Own(ys, x.Key())| && h == HistoryOf(Own(ys, x.Key())) + [Luna.Input(x.event, x.world)]
    requires Luna.Executes(x.Key(), h, a, position)
    ensures p < |ys| && ys[p].Key() == x.Key() && ys[p].event == h[a].event && ExecutesAt(view, ys, p, position)
    ensures Own(ys[..p], x.Key()) == Own(ys, x.Key())[..a]
  {
    hide DeliverAll, LunaCursor, SessionKeys.SessionKey, Luna.After, Luna.RegistryOnly, Luna.StateAt, Begin, Own;
    var key, os := x.Key(), Own(ys, x.Key());
    p := OwnPosition(ys, key, a);
    BeginsAsAlone(view, ys[..p], ys[p]);
    assert h == HistoryOf(os[..a]) + h[a..];
    AfterPrefix(key, HistoryOf(os[..a]), h[a..], a);
    var j :| 0 <= j < STEP_LIMIT && Luna.Visited(key, h, a, j).Some?
          && Luna.Visited(key, h, a, j).value.index == position;
    assert ExecutesOn(view, ys[..p], ys[p], position, Luna.Visited(key, h, a, j).value.data);
  }

  /** The safety theorem in any interleaving: when the run of x executes launch_cursor_run, x itself said exactly
      "launch", repository and request were captured from two earlier, distinct events of the same session in the
      interleaving, and the room was not refused. */
  lemma LaunchIsConfirmedAmongOthers(view: StoreView, ys: seq<Input>, x: Input, data: Data)
    requires SavedAt(view, x.Key()) == None && RunsLuna(ys + [x], x.Key())
    requires ExecutesOn(view, ys, x, Luna.LAUNCH, data)
    ensures Luna.Content(x.event) == "launch"
    ensures exists p, q :: 0 <= p < q < |ys| && CapturedAt(view, ys, p, x.Key(), {1, 4}, Lookup(data, PROJECT))
                                             && CapturedAt(view, ys, q, x.Key(), {6}, Lookup(data, CODE_CHANGE))
    ensures CHANNEL in data ==> data[CHANNEL].Show() != CHANNEL_CREATE_FAILED
  {
    hide DeliverAll, LunaCursor, SessionKeys.SessionKey, Luna.After, Luna.RegistryOnly, Luna.StateAt, Begin, Own,
         Luna.Content, Luna.Executes, ExecutesAt;
    var key, os := x.Key(), Own(ys, x.Key());
    var h, n := HistoryOf(os) + [Luna.Input(x.event, x.world)], |os|;
    assert (ys + [x])[|ys|] == x;
    assert RunsLuna(ys, key) by { forall i | 0 <= i < |ys| ensures (ys + [x])[i] == ys[i] {} }
    forall i | 0 <= i < n ensures Luna.RegistryOnly(h[i].world) {
      OwnHasKey(ys, key, i);
    }
    BeginsAsAlone(view, ys, x);
    AfterPrefix(key, HistoryOf(os), [Luna.Input(x.event, x.world)], n);
    var s := Begin(DeliverAll(view, ys), x);
    var j: nat :| var t := Luna.StateAt(LunaCursor(), x.world, x.event, s, j);
                  t.Some? && t.value.index == Luna.LAUNCH && t.value.data == data;
    assert Luna.Start(key, h, n) == s && h[n] == Luna.Input(x.event, x.world);
    assert Luna.Visited(key, h, n, j) == Luna.StateAt(LunaCursor(), x.world, x.event, s, j);
    Luna.LaunchIsConfirmed(key, h, n, j);
    var a, b :| 0 <= a < b < n && Luna.ProjectFrom(key, h, a, data) && Luna.ChangeFrom(key, h, b, data);
    var position := if Luna.Executes(key, h, a, 1) then 1 else 4;
    var p := OwnRunExecutes(view, ys, x, h, a, position);
    var q := OwnRunExecutes(view, ys, x, h, b, 6);
    OwnPositionsAscend(ys, key, p, q);
    assert CapturedAt(view, ys, p, key, {1, 4}, Lookup(data, PROJECT));
    assert CapturedAt(view, ys, q, key, {6}, Lookup(data, CODE_CHANGE));
  }
}
