/** How long a place speaks as its owner: what a later operation of the context store must not do, and what provisioning
    other rooms never does. */
module Ownership {
  import opened Text
  import opened Lifecycle
  import opened Delivery
  import opened Provisioning
  import RunMonitor

  /** The room or thread d belongs to the owner. */
  predicate OwnedBy(m: Store, d: string, owner: string)
  {
    OwnerOf(ByTarget(m, Some(d))) == Some(owner)
  }

  // ----- stores without dangling entries -----

  predicate Consistent(m: Store)
  {
    && TargetsSound(m)
    && forall channel :: channel in m.byChannel ==> !IsBlank(channel) && m.byChannel[channel] in m.byId
  }

  lemma DoKeepsConsistent(m: Store, op: Op)
    requires Consistent(m)
    ensures Consistent(Do(m, op))
  {
    hide IsBlank, TargetsSound, Released;
    DoKeepsSound(m, op);
    SoundIsKeyed(m);
  }

  lemma SoundIsKeyed(m: Store)
    requires TargetsSound(m)
    ensures forall id :: id in m.byId ==> m.byId[id].contextId == id
  {
  }

  lemma {:induction false} ReachableIsConsistent(h: History, n: nat)
    requires n <= |h|
    ensures Consistent(Replay(h, n))
  {
    hide Do, Consistent;
    if n == 0 {
      EmptyIsConsistent();
    } else {
      ReachableIsConsistent(h, n - 1);
      DoKeepsConsistent(Replay(h, n - 1), h[n - 1]);
    }
  }

  lemma EmptyIsConsistent()
    ensures Consistent(EMPTY)
  {
  }

  // ----- one operation -----

  /** Putting x takes the place d from its owner: x becomes the context of d under another owner, or x, which had d as
      its target, gives it up. */
  predicate PutTakesOver(m: Store, x: Context, d: string, owner: string)
  {
    if x.channelId == d then x.configuredBotId != Some(owner)
    else if d in m.byChannel then m.byChannel[d] == x.contextId && x.configuredBotId != Some(owner)
    else if x.deliveryChannelId == Some(d) then x.configuredBotId != Some(owner)
    else x.contextId in m.byId && m.byId[x.contextId].deliveryChannelId == Some(d)
  }

  predicate TakesOver(m: Store, op: Op, d: string, owner: string)
  {
    match op
    case DoPut(x) => PutTakesOver(m, x, d, owner)
    case DoSetTarget(id, target) =>
      Indexable(target) && id in m.byId && PutTakesOver(m, WithTarget(m.byId[id], target), d, owner)
    case _ => false
  }

  lemma PutKeepsOwner(m: Store, x: Context, d: string, owner: string)
    requires Consistent(m) && OwnedBy(m, d, owner)
    ensures OwnedBy(Put(m, x), d, owner) <==> !PutTakesOver(m, x, d, owner)
  {
    hide IsBlank;
  }

  /** After one operation the place still belongs to its owner exactly when the operation does not take it over. */
  lemma DoKeepsOwner(m: Store, op: Op, d: string, owner: string)
    requires Consistent(m) && OwnedBy(m, d, owner)
    ensures OwnedBy(Do(m, op), d, owner) <==> !TakesOver(m, op, d, owner)
  {
    hide IsBlank, PutTakesOver, Consistent, Put;
    match op
    case DoPut(x) => PutKeepsOwner(m, x, d, owner);
    case DoSetTarget(id, target) =>
      if Indexable(target) && id in m.byId {
        PutKeepsOwner(m, WithTarget(m.byId[id], target), d, owner);
      }
    case DoBindRun(_, _) =>
    case DoSetStatus(_, _) =>
  }

  // ----- every later history -----

  predicate OwnedAt(h: History, k: nat, d: string, owner: string)
    requires k <= |h|
  {
    OwnedBy(Replay(h, k), d, owner)
  }

  predicate TakenOverAt(h: History, k: nat, d: string, owner: string)
    requires k < |h|
  {
    TakesOver(Replay(h, k), h[k], d, owner)
  }

  /** From moment n to moment j the place belongs to its owner all along exactly when no operation in between takes it
      over. */
  lemma {:induction false} OwnedThroughout(h: History, n: nat, j: nat, d: string, owner: string)
    requires n <= j <= |h| && OwnedAt(h, n, d, owner)
    ensures (forall k :: n <= k <= j ==> OwnedAt(h, k, d, owner))
       <==> (forall k :: n <= k < j ==> !TakenOverAt(h, k, d, owner))
    decreases j
  {
    hide Do, OwnedBy, TakesOver;
    if n < j {
      OwnedThroughout(h, n, j - 1, d, owner);
      if OwnedAt(h, j - 1, d, owner) {
        ReachableIsConsistent(h, j - 1);
        DoKeepsOwner(Replay(h, j - 1), h[j - 1], d, owner);
        assert OwnedAt(h, j, d, owner) <==> !TakenOverAt(h, j - 1, d, owner);
      }
    }
  }

  // ----- what the monitor sends -----

  /** Where every update of the run goes. */
  function SpeechTarget(record: RunMonitor.Record): Option<string>
  {
    if Indexable(record.deliveryChannelId) then record.deliveryChannelId else record.channelId
  }

  lemma AddressedAtTarget(record: RunMonitor.Record, u: RunMonitor.Update)
    ensures RunMonitor.Addressed(record, u).target == SpeechTarget(record)
  {
  }

  /** In a given store everything sent for the run leaves as the owner exactly when the run's place belongs to it. */
  lemma SpeaksExactlyWhenOwned(m: Store, record: RunMonitor.Record, owner: string)
    requires !IsBlank(owner)
    ensures SpeaksAs(owner, m, record) <==> SpeechTarget(record).Some? && OwnedBy(m, SpeechTarget(record).value, owner)
  {
    hide IsBlank, ByTarget, SpeechTarget, RunMonitor.Addressed;
    forall u ensures RunMonitor.Addressed(record, u).target == SpeechTarget(record) {
      AddressedAtTarget(record, u);
    }
    var u := RunMonitor.PullRequest("");
    var nobody := Table(map[], map[], Some(Sender("default")), None);
    var owned := Table(map[owner := Sender("owner")], map[], None, None);
    if SpeaksAs(owner, m, record) {
      assert LeavesAs(owner, nobody, m, record, u) && LeavesAs(owner, owned, m, record, u);
    }
  }

  ghost predicate Speaks(h: History, k: nat, owner: string, record: RunMonitor.Record)
    requires k <= |h|
  {
    SpeaksAs(owner, Replay(h, k), record)
  }

  /** The operations of provisioning a room, in program order. */
  function ProvisioningOps(c: Context, thread: Option<string>, run: string): History
  {
    [DoPut(c), DoSetTarget(c.contextId, thread), DoBindRun(c.contextId, Some(run)), DoSetStatus(c.contextId, "active")]
  }

  lemma {:induction false} ReplayPrefix(h: History, more: History, n: nat)
    requires n <= |h|
    ensures Replay(h + more, n) == Replay(h, n)
  {
    hide Do;
    if n > 0 {
      ReplayPrefix(h, more, n - 1);
    }
  }

  lemma ProvisionedIsReplay(h: History, c: Context, thread: Option<string>, run: string, later: History)
    requires !IsBlank(c.contextId)
    ensures var g := h + ProvisioningOps(c, thread, run) + later;
            Replay(g, |h| + 4) == Provisioned(Replay(h, |h|), c, thread, run)
  {
    hide Put, SetTarget, BindRun, SetStatus, IsBlank;
    var ops := ProvisioningOps(c, thread, run);
    var g, n := h + ops + later, |h|;
    assert g == h + (ops + later);
    ReplayPrefix(h, ops + later, n);
    assert g[n] == ops[0] && g[n + 1] == ops[1] && g[n + 2] == ops[2] && g[n + 3] == ops[3];
    assert Replay(g, n + 1) == Do(Replay(g, n), ops[0]);
    assert Replay(g, n + 2) == Do(Replay(g, n + 1), ops[1]);
    assert Replay(g, n + 3) == Do(Replay(g, n + 2), ops[2]);
  }

  /** From provisioning on, through every later history: when the run is launched its updates leave as the owner, and
      they do so all along if and only if no later operation takes the run's place over. */
  lemma RunSpeaksThroughout(h: History, c: Context, thread: Option<string>, run: string, owner: string,
                            record: RunMonitor.Record, later: History)
    requires FreshRoom(Replay(h, |h|), c, thread, run) && c.configuredBotId == Some(owner) && !IsBlank(owner)
    requires SpeechTarget(record) == Some(MessageTarget(c.channelId, Some(OrElse(thread, THREAD_CREATE_FAILED))))
    ensures var g, n := h + ProvisioningOps(c, thread, run) + later, |h| + 4;
            && SpeaksAs(owner, Replay(g, n), record)
            && ((forall k :: n <= k <= |g| ==> Speaks(g, k, owner, record))
                <==> (forall k :: n <= k < |g| ==> !TakenOverAt(g, k, SpeechTarget(record).value, owner)))
  {
    hide IsBlank, OwnedBy, TakesOver, Replay, Provisioned, FreshRoom, SpeaksAs, SpeechTarget, MessageTarget;
    var g, n, d := h + ProvisioningOps(c, thread, run) + later, |h| + 4, SpeechTarget(record).value;
    FreshIdIsPresent(Replay(h, |h|), c, thread, run);
    ProvisionedIsReplay(h, c, thread, run, later);
    ProvisionedPlaceIsOwned(Replay(h, |h|), c, thread, run, owner);
    forall k | n <= k <= |g| ensures Speaks(g, k, owner, record) <==> OwnedAt(g, k, d, owner) {
      SpeaksExactlyWhenOwned(Replay(g, k), record, owner);
    }
    assert OwnedAt(g, n, d, owner);
    assert Speaks(g, n, owner, record);
    OwnedThroughout(g, n, |g|, d, owner);
  }

  lemma FreshIdIsPresent(m: Store, c: Context, thread: Option<string>, run: string)
    requires FreshRoom(m, c, thread, run)
    ensures !IsBlank(c.contextId)
  {
  }

  lemma ProvisionedPlaceIsOwned(m: Store, c: Context, thread: Option<string>, run: string, owner: string)
    requires FreshRoom(m, c, thread, run) && c.configuredBotId == Some(owner) && !IsBlank(owner)
    ensures var target := MessageTarget(c.channelId, Some(OrElse(thread, THREAD_CREATE_FAILED)));
            OwnedBy(Provisioned(m, c, thread, run), target, owner)
  {
    hide IsBlank, Provisioned, FreshRoom;
    ProvisioningConverges(m, c, thread, run);
  }

  // ----- other rooms -----

  datatype Room = Room(context: Context, thread: Option<string>, run: string)

  /** The store after any number of further rooms have been provisioned. */
  function ProvisionAll(m: Store, rooms: seq<Room>): Store
  {
    if rooms == [] then m
    else
      var last := rooms[|rooms| - 1];
      Provisioned(ProvisionAll(m, rooms[..|rooms| - 1]), last.context, last.thread, last.run)
  }

  /** The new room has nothing to do with the place d. */
  predicate Avoids(r: Room, d: string)
  {
    r.context.channelId != d && r.thread != Some(d) && r.context.deliveryChannelId != Some(d)
  }

  /** Every room comes with ids that are fresh when it is provisioned, and none of them is d. */
  predicate FreshRooms(m: Store, rooms: seq<Room>, d: string)
  {
    if rooms == [] then true
    else
      var before, last := rooms[..|rooms| - 1], rooms[|rooms| - 1];
      && FreshRooms(m, before, d) && Avoids(last, d)
      && FreshRoom(ProvisionAll(m, before), last.context, last.thread, last.run)
  }

  lemma ProvisionedIsConsistent(m: Store, c: Context, thread: Option<string>, run: string)
    requires Consistent(m)
    ensures Consistent(Provisioned(m, c, thread, run))
  {
    hide Consistent, Put, SetTarget, BindRun, SetStatus, IsBlank;
    var put, targeted := Put(m, c), SetTarget(Put(m, c), c.contextId, thread);
    DoKeepsConsistent(m, DoPut(c));
    DoKeepsConsistent(put, DoSetTarget(c.contextId, thread));
    DoKeepsConsistent(targeted, DoBindRun(c.contextId, Some(run)));
    DoKeepsConsistent(BindRun(targeted, c.contextId, Some(run)), DoSetStatus(c.contextId, "active"));
  }

  /** Provisioning another room leaves alone what every other place leads to. */
  lemma OtherRoomMissesPlace(m: Store, r: Room, d: string)
    requires Consistent(m) && ByTarget(m, Some(d)).Some?
    requires FreshRoom(m, r.context, r.thread, r.run) && Avoids(r, d)
    ensures ByTarget(Provisioned(m, r.context, r.thread, r.run), Some(d)) == ByTarget(m, Some(d))
  {
    hide IsBlank, Provisioned;
    ProvisionedMaps(m, r.context, r.thread, r.run);
    ProvisionedTargets(m, r.context, r.thread, r.run, d);
  }

  lemma ProvisionedTargets(m: Store, c: Context, thread: Option<string>, run: string, d: string)
    requires FreshRoom(m, c, thread, run) && thread != Some(d) && c.deliveryChannelId != Some(d)
    ensures Lookup(Provisioned(m, c, thread, run).byTarget, d) == Lookup(m.byTarget, d)
  {
    hide IsBlank;
  }

  /** Any number of rooms provisioned later leave the owner of a place, and so the sender of its updates, as they
      are. */
  lemma {:induction false} OtherRoomsMissPlace(m: Store, rooms: seq<Room>, d: string)
    requires Consistent(m) && ByTarget(m, Some(d)).Some? && FreshRooms(m, rooms, d)
    ensures Consistent(ProvisionAll(m, rooms)) && ByTarget(ProvisionAll(m, rooms), Some(d)) == ByTarget(m, Some(d))
  {
    hide Consistent, ByTarget, Provisioned, FreshRoom, Avoids;
    if rooms != [] {
      var before, last := rooms[..|rooms| - 1], rooms[|rooms| - 1];
      OtherRoomsMissPlace(m, before, d);
      OtherRoomMissesPlace(ProvisionAll(m, before), last, d);
      ProvisionedIsConsistent(ProvisionAll(m, before), last.context, last.thread, last.run);
    }
  }

  /** A room is taken over when another context is put under its channel. */
  lemma RoomIsTakenOver(a: Context, b: Context)
    requires a.contextId != b.contextId && a.channelId == "room" == b.channelId
    requires a.configuredBotId == Some("arrietty") && b.configuredBotId == Some("luna")
    ensures OwnedAt([DoPut(a), DoPut(b)], 1, "room", "arrietty")
    ensures !OwnedAt([DoPut(a), DoPut(b)], 2, "room", "arrietty")
  {
    assert !IsWhite("room"[0]) && !IsWhite("arrietty"[0]) && !IsWhite("luna"[0]) && "luna"[0] != "arrietty"[0];
    var h := [DoPut(a), DoPut(b)];
    assert Replay(h, 1) == Do(Replay(h, 0), h[0]) && Replay(h, 2) == Do(Replay(h, 1), h[1]);
  }
}
