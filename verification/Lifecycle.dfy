/** The lifecycle context store: one primary map and three secondary indexes, some of whose entries are left behind
    on purpose, and what the indexes say about the history of operations. */
module Lifecycle {
  import opened Text

  const THREAD_CREATE_FAILED := "THREAD_CREATE_FAILED"

  /** The visible state of a context object. */
  datatype Context = Context(
    contextId: string,
    channelId: string,
    createdAt: int,
    externalRunId: Option<string>,
    configuredBotId: Option<string>,
    runtimeBotInstanceId: Option<string>,
    repo: Option<string>,
    requestText: Option<string>,
    status: string,
    deliveryChannelId: Option<string>)

  function NormalStatus(status: string): string
  {
    if IsBlank(status) then "active" else status
  }

  function WithTarget(c: Context, target: Option<string>): Context
  {
    c.(deliveryChannelId := target, status := NormalStatus(c.status))
  }

  // ----- the store as a value -----

  datatype Store = Store(
    byId: map<string, Context>,
    byChannel: map<string, string>,
    byRun: map<string, string>,
    byTarget: map<string, string>)

  const EMPTY := Store(map[], map[], map[], map[])

  function Index(index: map<string, string>, key: Option<string>, id: string): map<string, string>
  {
    if Present(key) then index[key.value := id] else index
  }

  /** A delivery target worth indexing: not null, not blank, not the sentinel of a failed thread. */
  predicate Indexable(target: Option<string>)
  {
    Present(target) && target.value != THREAD_CREATE_FAILED
  }

  /** The targets after the previous version's target, if any, has been removed, whoever it points to. */
  function Released(m: Store, id: string): map<string, string>
  {
    if id in m.byId && Present(m.byId[id].deliveryChannelId) then m.byTarget - {m.byId[id].deliveryChannelId.value}
    else m.byTarget
  }

  function Put(m: Store, c: Context): Store
  {
    var released := Released(m, c.contextId);
    Store(
      m.byId[c.contextId := c],
      Index(m.byChannel, Some(c.channelId), c.contextId),
      Index(m.byRun, c.externalRunId, c.contextId),
      if Indexable(c.deliveryChannelId) then released[c.deliveryChannelId.value := c.contextId] else released)
  }

  function SetTarget(m: Store, id: string, target: Option<string>): Store
  {
    if Indexable(target) && id in m.byId then Put(m, WithTarget(m.byId[id], target)) else m
  }

  function BindRun(m: Store, id: string, run: Option<string>): Store
  {
    if Present(run) && id in m.byId then
      m.(byId := m.byId[id := m.byId[id].(externalRunId := run)], byRun := m.byRun[run.value := id])
    else m
  }

  function SetStatus(m: Store, id: string, status: string): Store
  {
    if id in m.byId && !IsBlank(status) then m.(byId := m.byId[id := m.byId[id].(status := status)]) else m
  }

  function Deref(m: Store, index: map<string, string>, key: Option<string>): Option<Context>
  {
    if Present(key) && key.value in index && index[key.value] in m.byId then Some(m.byId[index[key.value]]) else None
  }

  function ById(m: Store, id: string): Option<Context>
  {
    if id in m.byId then Some(m.byId[id]) else None
  }

  function ByChannel(m: Store, channel: Option<string>): Option<Context> { Deref(m, m.byChannel, channel) }

  function ByRun(m: Store, run: Option<string>): Option<Context> { Deref(m, m.byRun, run) }

  /** A room's channel wins over a delivery target of the same id. */
  function ByTarget(m: Store, target: Option<string>): Option<Context>
  {
    if ByChannel(m, target).Some? then ByChannel(m, target) else Deref(m, m.byTarget, target)
  }

  // ----- the mutable store -----

  class LifecycleContext {
    const contextId: string
    const channelId: string
    const createdAt: int
    const configuredBotId: Option<string>
    const runtimeBotInstanceId: Option<string>
    const repo: Option<string>
    const requestText: Option<string>
    const deliveryChannelId: Option<string>
    var externalRunId: Option<string>
    var status: string

    function Snap(): Context
      reads this
    {
      Context(contextId, channelId, createdAt, externalRunId, configuredBotId, runtimeBotInstanceId, repo, requestText,
              status, deliveryChannelId)
    }

    constructor (c: Context)
      ensures Snap() == c.(status := NormalStatus(c.status))
    {
      contextId, channelId, createdAt := c.contextId, c.channelId, c.createdAt;
      configuredBotId, runtimeBotInstanceId := c.configuredBotId, c.runtimeBotInstanceId;
      repo, requestText, deliveryChannelId := c.repo, c.requestText, c.deliveryChannelId;
      externalRunId, status := c.externalRunId, NormalStatus(c.status);
    }

    method SetExternalRunId(run: Option<string>)
      modifies this
      ensures Snap() == old(Snap()).(externalRunId := run)
    {
      externalRunId := run;
    }

    method SetStatus(s: string)
      modifies this
      ensures Snap() == old(Snap()).(status := if IsBlank(s) then old(status) else s)
    {
      status := if IsBlank(s) then status else s;
    }

    method WithDeliveryChannelId(target: Option<string>) returns (copy: LifecycleContext)
      ensures fresh(copy) && copy.Snap() == WithTarget(Snap(), target)
    {
      copy := new LifecycleContext(Snap().(deliveryChannelId := target));
    }
  }

  class LifecycleContextStore {
    var byId: map<string, LifecycleContext>
    var channelToContextId: map<string, string>
    var externalRunIdToContextId: map<string, string>
    var deliveryTargetToContextId: map<string, string>

    ghost function Contexts(): set<LifecycleContext>
      reads this
    {
      set k | k in byId :: byId[k]
    }

    /** Every context is stored under its own id, so no object is stored twice. */
    ghost predicate Valid()
      reads this
    {
      forall k :: k in byId ==> byId[k].contextId == k
    }

    ghost function Model(): Store
      reads this, Contexts()
    {
      Store(map k | k in byId :: byId[k].Snap(), channelToContextId, externalRunIdToContextId,
            deliveryTargetToContextId)
    }

    constructor ()
      ensures Valid() && Model() == EMPTY && Contexts() == {}
    {
      byId, channelToContextId, externalRunIdToContextId, deliveryTargetToContextId := map[], map[], map[], map[];
    }

    /** Drops the index entry of the stored version's target, if there is one. */
    method ReleaseTarget(contextId: string)
      requires Valid()
      modifies this`deliveryTargetToContextId
      ensures deliveryTargetToContextId == Released(old(Model()), contextId)
    {
      if contextId in byId {
        var existing := byId[contextId];
        assert old(Model()).byId[contextId] == existing.Snap();
        if Present(existing.deliveryChannelId) {
          deliveryTargetToContextId := deliveryTargetToContextId - {existing.deliveryChannelId.value};
        }
      }
    }

    /** Adds the context to every index it belongs to. */
    method IndexContext(context: LifecycleContext)
      modifies this`channelToContextId, this`externalRunIdToContextId, this`deliveryTargetToContextId
      ensures channelToContextId == Index(old(channelToContextId), Some(context.channelId), context.contextId)
      ensures externalRunIdToContextId == Index(old(externalRunIdToContextId), context.externalRunId, context.contextId)
      ensures deliveryTargetToContextId == if Indexable(context.deliveryChannelId)
        then old(deliveryTargetToContextId)[context.deliveryChannelId.value := context.contextId]
        else old(deliveryTargetToContextId)
    {
      if !IsBlank(context.channelId) {
        channelToContextId := channelToContextId[context.channelId := context.contextId];
      }
      if Present(context.externalRunId) {
        externalRunIdToContextId := externalRunIdToContextId[context.externalRunId.value := context.contextId];
      }
      if Present(context.deliveryChannelId) && context.deliveryChannelId.value != THREAD_CREATE_FAILED {
        deliveryTargetToContextId := deliveryTargetToContextId[context.deliveryChannelId.value := context.contextId];
      }
    }

    method PutContext(context: LifecycleContext?)
      requires Valid()
      modifies this
      ensures Valid()
      ensures Model() == if context == null then old(Model()) else Put(old(Model()), context.Snap())
      ensures Contexts() <= old(Contexts()) + if context == null then {} else {context}
    {
      hide IsBlank;
      if context == null { return; }
      ReleaseTarget(context.contextId);
      byId := byId[context.contextId := context];
      IndexContext(context);
      assert Model().byId == old(Model()).byId[context.contextId := context.Snap()];
    }

    method SetDeliveryTargetId(contextId: string, target: Option<string>)
      requires Valid()
      modifies this
      ensures Valid() && Model() == SetTarget(old(Model()), contextId, target)
      ensures fresh(Contexts() - old(Contexts()))
    {
      if !Present(target) || target.value == THREAD_CREATE_FAILED { return; }
      if contextId in byId {
        var copy := byId[contextId].WithDeliveryChannelId(target);
        PutContext(copy);
      }
    }

    method BindExternalRunId(contextId: Option<string>, run: Option<string>)
      requires Valid()
      modifies this, Contexts()
      ensures Valid() && Contexts() == old(Contexts())
      ensures Model() == if contextId.Some? then BindRun(old(Model()), contextId.value, run) else old(Model())
    {
      if contextId.None? || !Present(run) { return; }
      if contextId.value in byId {
        byId[contextId.value].SetExternalRunId(run);
        externalRunIdToContextId := externalRunIdToContextId[run.value := contextId.value];
      }
    }

    /** What launch_cursor_run does to the status of the context it finds by id. */
    method SetStatusOf(contextId: string, status: string)
      requires Valid()
      modifies Contexts()
      ensures Valid() && Contexts() == old(Contexts())
      ensures Model() == SetStatus(old(Model()), contextId, status)
    {
      if contextId in byId {
        byId[contextId].SetStatus(status);
      }
    }

    method GetByContextId(id: string) returns (found: LifecycleContext?)
      ensures if found == null then ById(Model(), id) == None
              else found in Contexts() && ById(Model(), id) == Some(found.Snap())
    {
      found := if id in byId then byId[id] else null;
    }

    method GetByChannelId(channel: Option<string>) returns (found: LifecycleContext?)
      ensures if found == null then ByChannel(Model(), channel) == None
              else found in Contexts() && ByChannel(Model(), channel) == Some(found.Snap())
    {
      if !Present(channel) || channel.value !in channelToContextId { return null; }
      found := GetByContextId(channelToContextId[channel.value]);
    }

    method GetByDeliveryTargetId(target: Option<string>) returns (found: LifecycleContext?)
      ensures if found == null then ByTarget(Model(), target) == None
              else found in Contexts() && ByTarget(Model(), target) == Some(found.Snap())
    {
      if !Present(target) { return null; }
      found := GetByChannelId(target);
      if found != null { return; }
      if target.value !in deliveryTargetToContextId { return null; }
      found := GetByContextId(deliveryTargetToContextId[target.value]);
    }

    method GetByExternalRunId(run: Option<string>) returns (found: LifecycleContext?)
      ensures if found == null then ByRun(Model(), run) == None
              else found in Contexts() && ByRun(Model(), run) == Some(found.Snap())
    {
      if !Present(run) || run.value !in externalRunIdToContextId { return null; }
      found := GetByContextId(externalRunIdToContextId[run.value]);
    }
  }

  // ----- histories -----

  datatype Op =
    | DoPut(context: Context)
    | DoSetTarget(id: string, target: Option<string>)
    | DoBindRun(id: string, run: Option<string>)
    | DoSetStatus(id: string, status: string)

  type History = seq<Op>

  function Do(m: Store, op: Op): Store
  {
    match op
    case DoPut(c) => Put(m, c)
    case DoSetTarget(id, target) => SetTarget(m, id, target)
    case DoBindRun(id, run) => BindRun(m, id, run)
    case DoSetStatus(id, status) => SetStatus(m, id, status)
  }

  /** The store after the first n operations. */
  function Replay(h: History, n: nat): Store
    requires n <= |h|
  {
    if n == 0 then EMPTY else Do(Replay(h, n - 1), h[n - 1])
  }

  /** The current version of a context, read off the history alone: the last put with the updates since. */
  function Version(h: History, n: nat, id: string): Option<Context>
    requires n <= |h|
  {
    if n == 0 then None
    else
      var before := Version(h, n - 1, id);
      match h[n - 1]
      case DoPut(c) => if c.contextId == id then Some(c) else before
      case DoSetTarget(i, target) =>
        if i == id && Indexable(target) && before.Some? then
          Some(before.value.(deliveryChannelId := target,
                             status := if IsBlank(before.value.status) then "active" else before.value.status))
        else before
      case DoBindRun(i, run) =>
        if i == id && Present(run) && before.Some? then Some(before.value.(externalRunId := run)) else before
      case DoSetStatus(i, status) =>
        if i == id && !IsBlank(status) && before.Some? then Some(before.value.(status := status)) else before
  }

  /** The id that operation n puts under a channel: directly, or by re-putting a context for a new target. */
  function PutUnder(h: History, n: nat, channel: string): Option<string>
    requires n < |h|
  {
    match h[n]
    case DoPut(c) => if c.channelId == channel then Some(c.contextId) else None
    case DoSetTarget(id, target) =>
      var context := Version(h, n, id);
      if Indexable(target) && context.Some? && context.value.channelId == channel then Some(id) else None
    case _ => None
  }

  /** The id most recently put under a channel. */
  function LastUnder(h: History, n: nat, channel: string): Option<string>
    requires n <= |h|
  {
    if n == 0 then None
    else if PutUnder(h, n - 1, channel).Some? then PutUnder(h, n - 1, channel)
    else LastUnder(h, n - 1, channel)
  }

  /** The id that operation n puts with, or binds to, a run. */
  function PutWith(h: History, n: nat, run: string): Option<string>
    requires n < |h|
  {
    match h[n]
    case DoPut(c) => if c.externalRunId == Some(run) then Some(c.contextId) else None
    case DoSetTarget(id, target) =>
      var context := Version(h, n, id);
      if Indexable(target) && context.Some? && context.value.externalRunId == Some(run) then Some(id) else None
    case DoBindRun(id, r) => if r == Some(run) && Version(h, n, id).Some? then Some(id) else None
    case _ => None
  }

  function LastWith(h: History, n: nat, run: string): Option<string>
    requires n <= |h|
  {
    if n == 0 then None
    else if PutWith(h, n - 1, run).Some? then PutWith(h, n - 1, run)
    else LastWith(h, n - 1, run)
  }

  lemma {:induction false} VersionsAreStored(h: History, n: nat, id: string)
    requires n <= |h|
    ensures ById(Replay(h, n), id) == Version(h, n, id)
    ensures Version(h, n, id).Some? ==> Version(h, n, id).value.contextId == id
  {
    if n > 0 {
      VersionsAreStored(h, n - 1, id);
      if h[n - 1].DoSetTarget? {
        VersionsAreStored(h, n - 1, h[n - 1].id);
      }
    }
  }

  lemma {:induction false} ChannelsRefine(h: History, n: nat, channel: string)
    requires n <= |h| && !IsBlank(channel)
    ensures Lookup(Replay(h, n).byChannel, channel) == LastUnder(h, n, channel)
    ensures LastUnder(h, n, channel).Some? ==> Version(h, n, LastUnder(h, n, channel).value).Some?
  {
    if n > 0 {
      ChannelsRefine(h, n - 1, channel);
      if h[n - 1].DoSetTarget? {
        VersionsAreStored(h, n - 1, h[n - 1].id);
      }
    }
  }

  lemma {:induction false} RunsRefine(h: History, n: nat, run: string)
    requires n <= |h| && !IsBlank(run)
    ensures Lookup(Replay(h, n).byRun, run) == LastWith(h, n, run)
    ensures LastWith(h, n, run).Some? ==> Version(h, n, LastWith(h, n, run).value).Some?
  {
    if n > 0 {
      RunsRefine(h, n - 1, run);
      if h[n - 1].DoSetTarget? || h[n - 1].DoBindRun? {
        VersionsAreStored(h, n - 1, h[n - 1].id);
      }
    }
  }

  /** Store refines history: by id, channel and run the store answers with the current version of the context that
      the history names as the last one put there, and an index entry never dangles. */
  lemma StoreRefinesHistory(h: History, key: string)
    requires !IsBlank(key)
    ensures var m, n := Replay(h, |h|), |h|;
            && ById(m, key) == Version(h, n, key)
            && ByChannel(m, Some(key))
                 == (if LastUnder(h, n, key).Some? then Version(h, n, LastUnder(h, n, key).value) else None)
            && ByRun(m, Some(key))
                 == (if LastWith(h, n, key).Some? then Version(h, n, LastWith(h, n, key).value) else None)
            && (key in m.byChannel ==> ByChannel(m, Some(key)).Some?)
            && (key in m.byRun ==> ByRun(m, Some(key)).Some?)
  {
    hide Replay, Version, LastUnder, LastWith;
    var n := |h|;
    VersionsAreStored(h, n, key);
    ChannelsRefine(h, n, key);
    RunsRefine(h, n, key);
    if LastUnder(h, n, key).Some? { VersionsAreStored(h, n, LastUnder(h, n, key).value); }
    if LastWith(h, n, key).Some? { VersionsAreStored(h, n, LastWith(h, n, key).value); }
  }

  /** A null or blank key finds nothing. */
  lemma BlankKeyFindsNothing(m: Store, key: Option<string>)
    requires key.None? || IsBlank(key.value)
    ensures ByChannel(m, key) == None && ByRun(m, key) == None && ByTarget(m, key) == None
  {
  }

  /** The mutable store driven through a history holds exactly what the replay says. */
  method PlayHistory(h: History) returns (store: LifecycleContextStore)
    requires forall n :: 0 <= n < |h| && h[n].DoPut? ==> !IsBlank(h[n].context.status)
    ensures fresh(store) && fresh(store.Contexts()) && store.Valid()
    ensures store.Model() == Replay(h, |h|)
  {
    hide Put, SetTarget, BindRun, SetStatus, IsBlank;
    store := new LifecycleContextStore();
    for n := 0 to |h|
      invariant fresh(store) && fresh(store.Contexts()) && store.Valid()
      invariant store.Model() == Replay(h, n)
    {
      match h[n] {
        case DoPut(c) =>
          var context := new LifecycleContext(c);
          store.PutContext(context);
        case DoSetTarget(id, target) => store.SetDeliveryTargetId(id, target);
        case DoBindRun(id, run) => store.BindExternalRunId(Some(id), run);
        case DoSetStatus(id, status) => store.SetStatusOf(id, status);
      }
    }
  }

  // ----- the delivery index -----

  /** Every entry points to a context that currently has that target, and the sentinel is never indexed. */
  predicate TargetsSound(m: Store)
  {
    && (forall id :: id in m.byId ==> m.byId[id].contextId == id)
    && forall d :: d in m.byTarget ==>
      Indexable(Some(d)) && m.byTarget[d] in m.byId && m.byId[m.byTarget[d]].deliveryChannelId == Some(d)
  }

  lemma DoKeepsSound(m: Store, op: Op)
    requires TargetsSound(m)
    ensures TargetsSound(Do(m, op))
  {
  }

  /** Soundness in every reachable store. */
  lemma {:induction false} TargetsAreSound(h: History, n: nat)
    requires n <= |h|
    ensures TargetsSound(Replay(h, n))
  {
    if n > 0 {
      TargetsAreSound(h, n - 1);
      DoKeepsSound(Replay(h, n - 1), h[n - 1]);
    }
  }

  /** No reachable index ever holds a blank target or the sentinel. */
  lemma SentinelIsNeverIndexed(h: History, n: nat, target: string)
    requires n <= |h| && target in Replay(h, n).byTarget
    ensures !IsBlank(target) && target != "THREAD_CREATE_FAILED"
  {
    TargetsAreSound(h, n);
  }

  /** The index is the exact inverse of the contexts' delivery field. */
  predicate TargetsExact(m: Store)
  {
    && TargetsSound(m)
    && forall id :: id in m.byId && Indexable(m.byId[id].deliveryChannelId) ==>
      Lookup(m.byTarget, m.byId[id].deliveryChannelId.value) == Some(id)
  }

  /** No other context holds the target that a new version of this one brings. */
  predicate Unshared(m: Store, id: string, target: Option<string>)
  {
    Indexable(target) ==> forall other :: other in m.byId && other != id ==> m.byId[other].deliveryChannelId != target
  }

  /** Putting a context keeps the index exact exactly when it brings no target of another context. */
  lemma PutKeepsExact(m: Store, c: Context)
    requires TargetsExact(m)
    ensures TargetsExact(Put(m, c)) <==> Unshared(m, c.contextId, c.deliveryChannelId)
  {
    var after := Put(m, c);
    DoKeepsSound(m, DoPut(c));
    if !Unshared(m, c.contextId, c.deliveryChannelId) {
      var other :| other in m.byId && other != c.contextId && m.byId[other].deliveryChannelId == c.deliveryChannelId;
      assert after.byId[other] == m.byId[other];
      assert Lookup(after.byTarget, c.deliveryChannelId.value) == Some(c.contextId);
    }
  }

  /** The operation brings no target that another context holds; one on an unknown id brings nothing. */
  predicate BringsUnshared(m: Store, op: Op)
  {
    match op
    case DoPut(c) => Unshared(m, c.contextId, c.deliveryChannelId)
    case DoSetTarget(id, target) => id in m.byId ==> Unshared(m, id, target)
    case _ => true
  }

  lemma DoKeepsExact(m: Store, op: Op)
    requires TargetsExact(m)
    ensures TargetsExact(Do(m, op)) <==> BringsUnshared(m, op)
  {
    match op
    case DoPut(c) => PutKeepsExact(m, c);
    case DoSetTarget(id, target) =>
      if Indexable(target) && id in m.byId {
        PutKeepsExact(m, WithTarget(m.byId[id], target));
      }
    case DoBindRun(_, _) =>
    case DoSetStatus(_, _) =>
  }

  predicate ExactAt(h: History, k: nat)
    requires k <= |h|
  {
    TargetsExact(Replay(h, k))
  }

  predicate UnsharedAt(h: History, k: nat)
    requires k < |h|
  {
    BringsUnshared(Replay(h, k), h[k])
  }

  /** The index is exact all along a history exactly when no operation ever brings a target another context holds. */
  lemma {:induction false} TargetsAreExact(h: History, n: nat)
    requires n <= |h|
    ensures (forall k :: 0 <= k <= n ==> ExactAt(h, k)) <==> (forall k :: 0 <= k < n ==> UnsharedAt(h, k))
  {
    hide Do, TargetsExact, BringsUnshared;
    if n == 0 {
      EmptyIsExact();
    } else {
      TargetsAreExact(h, n - 1);
      if ExactAt(h, n - 1) {
        DoKeepsExact(Replay(h, n - 1), h[n - 1]);
        assert ExactAt(h, n) <==> UnsharedAt(h, n - 1);
      }
    }
  }

  lemma EmptyIsExact()
    ensures TargetsExact(EMPTY)
  {
  }

  /** A shared target is lost: when the context that held it first moves on, the entry of the second one goes too. */
  lemma SharedTargetIsLost(a: Context, b: Context, t: string, u: string)
    requires a.contextId != b.contextId && t != u
    requires a.deliveryChannelId == Some(t) == b.deliveryChannelId && Indexable(Some(t)) && Indexable(Some(u))
    ensures var m := SetTarget(Put(Put(EMPTY, a), b), a.contextId, Some(u));
            m.byId[b.contextId].deliveryChannelId == Some(t) && t !in m.byTarget
  {
  }

  // ----- provisioning order -----

  /** Setting the delivery target and binding a run commute exactly when the run the context had before is absent,
      is the same run, or still points to this context: otherwise re-putting the context revives the old entry. */
  lemma TargetAndRunCommute(m: Store, id: string, target: Option<string>, run: Option<string>)
    requires id in m.byId && m.byId[id].contextId == id && Indexable(target) && Present(run)
    ensures var before := m.byId[id].externalRunId;
            SetTarget(BindRun(m, id, run), id, target) == BindRun(SetTarget(m, id, target), id, run)
            <==> !Present(before) || before == run || Lookup(m.byRun, before.value) == Some(id)
  {
    var before := m.byId[id].externalRunId;
    var left, right := SetTarget(BindRun(m, id, run), id, target), BindRun(SetTarget(m, id, target), id, run);
    assert left.byId == right.byId && left.byChannel == right.byChannel && left.byTarget == right.byTarget;
    assert left.byRun == m.byRun[run.value := id];
    assert right.byRun == Index(m.byRun, before, id)[run.value := id];
    if Present(before) && before != run {
      assert Lookup(right.byRun, before.value) == Some(id);
      assert Lookup(left.byRun, before.value) == Lookup(m.byRun, before.value);
      assert Lookup(m.byRun, before.value) == Some(id) ==> left.byRun == right.byRun;
    }
  }

  /** A reachable store where the two orders differ: run "r" was put with "a" and then with "b"; giving "a" a target
      first takes "r" back from "b", binding "a" to run "s" first does not. */
  lemma TargetAndRunConflict(a: Context, b: Context)
    requires a.contextId == "a" && b.contextId == "b" && a.externalRunId == Some("r") == b.externalRunId
    ensures var m := Replay([DoPut(a), DoPut(b)], 2);
            var left, right := SetTarget(BindRun(m, "a", Some("s")), "a", Some("t")),
                               BindRun(SetTarget(m, "a", Some("t")), "a", Some("s"));
            && ByRun(left, Some("r")) == Some(b)
            && ByRun(right, Some("r")).Some? && ByRun(right, Some("r")).value.contextId == "a"
  {
    assert !IsBlank("r") && !IsBlank("s") && Indexable(Some("t")) by {
      assert !IsWhite("r"[0]) && !IsWhite("s"[0]) && !IsWhite("t"[0]) && |"t"| != |THREAD_CREATE_FAILED|;
    }
    hide IsBlank, Released, Indexable, NormalStatus;
    var h, m := [DoPut(a), DoPut(b)], Put(Put(EMPTY, a), b);
    assert Replay(h, 1) == Do(Replay(h, 0), h[0]) && Replay(h, 2) == m;
    assert "r"[0] != "s"[0] && "a"[0] != "b"[0];
    assert m.byRun["r"] == "b" && m.byId["a"] == a && m.byId["b"] == b;
  }
}
