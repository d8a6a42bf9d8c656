/** Sessions do not interfere: in any interleaving of events of many bots and sessions, a session's saved state and
    its replies are those of running its own events alone. */
module Isolation {
  import opened Text
  import opened WorkflowModel
  import opened Interpreter
  import opened Runner
  import opened SessionKeys

  /** An event for one bot, with the bot's configuration and the world's answers during the run. */
  datatype Input = Input(botId: string, program: Program, strategy: Option<string>, event: Event, world: World)
  {
    function Key(): string
    {
      SessionKey(strategy, botId, event)
    }
  }

  function Begin(view: StoreView, x: Input): Snapshot
  {
    Enter(SavedAt(view, x.Key()), x.Key(), |x.program|)
  }

  function EndOf(view: StoreView, x: Input): RunEnd
  {
    Run(x.program, x.world, x.event, x.Key(), SavedAt(view, x.Key()))
  }

  function Deliver(view: StoreView, x: Input): StoreView
  {
    if x.program == [] then view
    else
      var writes := WritesFrom(x.program, x.world, x.event, 0, Begin(view, x));
      WriteAll(view - {x.Key()}, writes)[x.Key() := Saved(EndOf(view, x).state)]
  }

  function ReplyTo(view: StoreView, x: Input): RunResult
  {
    if x.program == [] then CompletedWith("") else EndOf(view, x).result
  }

  /** A bot without steps answers with an empty, completed reply and leaves the store alone. */
  lemma NoStepsNoRun(view: StoreView, x: Input)
    requires x.program == []
    ensures Deliver(view, x) == view && ReplyTo(view, x) == RunResult("", None, false, true, None, None)
  {
  }

  /** Otherwise its reply and its saved session are those of the run from the session saved before, and the actions'
      writes are there for everybody else. */
  lemma StepsAreRun(view: StoreView, x: Input, k: string)
    requires x.program != [] && k != x.Key()
    ensures var end := Run(x.program, x.world, x.event, x.Key(), SavedAt(view, x.Key()));
            var start := Enter(SavedAt(view, x.Key()), x.Key(), |x.program|);
            var writes := WritesFrom(x.program, x.world, x.event, 0, start);
            && ReplyTo(view, x) == end.result && SavedAt(Deliver(view, x), x.Key()) == Some(end.state)
            && (forall i :: 0 <= i < |writes| && LastUnderKey(writes, i, k) ==>
                  k in Deliver(view, x) && Deliver(view, x)[k] == Wrote(writes[i]))
            && ((forall i :: 0 <= i < |writes| ==> WriteKey(writes[i]) != k) ==>
                  (k in Deliver(view, x) <==> k in view) && (k in view ==> Deliver(view, x)[k] == view[k]))
  {
    hide Run, SessionKey, WritesFrom, Enter, WriteAll, LastUnderKey;
    var base, writes := view - {x.Key()}, WritesFrom(x.program, x.world, x.event, 0, Begin(view, x));
    WriteAllReads(base, writes, k);
    var after := WriteAll(base, writes);
    assert k in base <==> k in view;
    assert Deliver(view, x) == after[x.Key() := Saved(EndOf(view, x).state)];
    assert (k in Deliver(view, x) <==> k in after) && (k in after ==> Deliver(view, x)[k] == after[k]);
    hide Deliver;
  }

  function DeliverAll(view: StoreView, xs: seq<Input>): StoreView
    decreases |xs|
  {
    if xs == [] then view else DeliverAll(Deliver(view, xs[0]), xs[1..])
  }

  function Replies(view: StoreView, xs: seq<Input>): seq<RunResult>
    decreases |xs|
  {
    if xs == [] then [] else [ReplyTo(view, xs[0])] + Replies(Deliver(view, xs[0]), xs[1..])
  }

  /** The events of one session. */
  function Own(xs: seq<Input>, key: string): seq<Input>
  {
    if xs == [] then [] else (if xs[0].Key() == key then [xs[0]] else []) + Own(xs[1..], key)
  }

  /** The replies an interleaving gives to one session. */
  function RepliesFor(view: StoreView, xs: seq<Input>, key: string): seq<RunResult>
    decreases |xs|
  {
    if xs == [] then []
    else (if xs[0].Key() == key then [ReplyTo(view, xs[0])] else []) + RepliesFor(Deliver(view, xs[0]), xs[1..], key)
  }

  lemma {:induction false} WritesMissKey(view: StoreView, writes: seq<Write>, key: string)
    requires forall w :: WriteKey(w) != key
    ensures SavedAt(WriteAll(view, writes), key) == SavedAt(view, key)
    decreases |writes|
  {
    if writes != [] {
      WritesMissKey(view[WriteKey(writes[0]) := Wrote(writes[0])], writes[1..], key);
    }
  }

  /** One run leaves every other session as it was. */
  lemma DeliverMissesOthers(view: StoreView, x: Input, key: string)
    requires (forall w :: WriteKey(w) != key) && x.Key() != key
    ensures SavedAt(Deliver(view, x), key) == SavedAt(view, key)
  {
    hide Run, Begin, EndOf;
    if x.program != [] {
      WritesMissKey(view - {x.Key()}, WritesFrom(x.program, x.world, x.event, 0, Begin(view, x)), key);
    }
  }

  /** One run depends on nothing but its own session. */
  lemma DeliverReadsOwn(view: StoreView, alone: StoreView, x: Input)
    requires SavedAt(view, x.Key()) == SavedAt(alone, x.Key())
    ensures SavedAt(Deliver(view, x), x.Key()) == SavedAt(Deliver(alone, x), x.Key())
    ensures ReplyTo(view, x) == ReplyTo(alone, x)
  {
    hide Run, WriteAll, SessionKey;
  }

  lemma {:induction false} Interleaving(view: StoreView, alone: StoreView, xs: seq<Input>, key: string)
    requires forall w :: WriteKey(w) != key
    requires SavedAt(view, key) == SavedAt(alone, key)
    ensures SavedAt(DeliverAll(view, xs), key) == SavedAt(DeliverAll(alone, Own(xs, key)), key)
    ensures RepliesFor(view, xs, key) == Replies(alone, Own(xs, key))
    decreases |xs|
  {
    hide Deliver, ReplyTo, SavedAt, SessionKey;
    if xs != [] {
      var x, rest := xs[0], xs[1..];
      if x.Key() == key {
        DeliverReadsOwn(view, alone, x);
        Interleaving(Deliver(view, x), Deliver(alone, x), rest, key);
        assert Own(xs, key)[1..] == Own(rest, key);
      } else {
        DeliverMissesOthers(view, x, key);
        Interleaving(Deliver(view, x), alone, rest, key);
        assert Own(xs, key) == Own(rest, key);
        assert RepliesFor(view, xs, key) == RepliesFor(Deliver(view, x), rest, key);
      }
    }
  }

  /** Non-interference, for the session of any event of any bot: its final saved state and its replies in an
      interleaving that starts from any store equal those of its own events run from a store holding only it. */
  lemma SessionsDoNotInterfere(view: StoreView, xs: seq<Input>, x: Input)
    ensures var key := x.Key();
            var alone := if key in view then map[key := view[key]] else map[];
            && SavedAt(DeliverAll(view, xs), key) == SavedAt(DeliverAll(alone, Own(xs, key)), key)
            && RepliesFor(view, xs, key) == Replies(alone, Own(xs, key))
  {
    var key := x.Key();
    var alone := if key in view then map[key := view[key]] else map[];
    forall w ensures WriteKey(w) != key {
      WritesMissSessions(w, x.strategy, x.botId, x.event);
    }
    Interleaving(view, alone, xs, key);
  }

  /** Where users are told apart, as by default on Discord, and with colon-free ids, events of another conversation
      leave the session alone. */
  lemma OtherConversationsDoNotInterfere(view: StoreView, x: Input, y: Input)
    requires ByUser(x.strategy, x.event) && ByUser(y.strategy, y.event)
    requires ColonFreeIds(x.botId, x.event) && ColonFreeIds(y.botId, y.event)
    ensures ConversationOf(x.botId, x.event) != ConversationOf(y.botId, y.event)
        ==> SavedAt(Deliver(view, y), x.Key()) == SavedAt(view, x.Key())
  {
    hide Deliver, SessionKey;
    UserKeysInjective(x.strategy, x.botId, x.event, y.strategy, y.botId, y.event);
    forall w ensures WriteKey(w) != x.Key() {
      WritesMissSessions(w, x.strategy, x.botId, x.event);
    }
    if x.Key() != y.Key() {
      DeliverMissesOthers(view, y, x.Key());
    }
  }

  /** One event served by its bot's runner over the shared store. */
  method ServeOne(store: StateStore, x: Input) returns (reply: RunResult)
    requires store.Valid()
    modifies store, store.States()
    ensures store.Valid() && fresh(store.States() - old(store.States()))
    ensures store.View() == Deliver(old(store.View()), x)
    ensures reply == ReplyTo(old(store.View()), x)
  {
    var runner := new WorkflowRunner(x.program, x.strategy);
    assert store.Others(x.Key()) == store.View() - {x.Key()};
    reply := runner.RunResult(x.event, x.world, store, x.botId);
  }

  /** The mutable runners serving a list of events over one shared store compute DeliverAll and Replies. */
  method Serve(store: StateStore, xs: seq<Input>) returns (replies: seq<RunResult>)
    requires store.Valid()
    modifies store, store.States()
    ensures store.Valid()
    ensures store.View() == DeliverAll(old(store.View()), xs)
    ensures replies == Replies(old(store.View()), xs)
  {
    hide Deliver, ReplyTo;
    replies := [];
    var i := 0;
    while i < |xs|
      invariant 0 <= i <= |xs|
      invariant store.Valid() && fresh(store.States() - old(store.States()))
      invariant DeliverAll(store.View(), xs[i..]) == DeliverAll(old(store.View()), xs)
      invariant replies + Replies(store.View(), xs[i..]) == Replies(old(store.View()), xs)
    {
      var reply := ServeOne(store, xs[i]);
      assert xs[i..][1..] == xs[i + 1..];
      assert replies + ([reply] + Replies(store.View(), xs[i + 1..]))
          == (replies + [reply]) + Replies(store.View(), xs[i + 1..]);
      replies := replies + [reply];
      i := i + 1;
    }
    assert replies + [] == replies;
  }
}
