/** The actions that provision a lifecycle room, and what the context store answers once they have succeeded. */
module Provisioning {
  import opened Text
  import opened Lifecycle
  import opened Delivery
  import ChannelName
  import WorkflowModel
  import RunMonitor
  import opened SessionKeys

  /** Action arguments as text; an absent key reads as null. */
  type Texts = map<string, string>

  /** Bindings win over session state. */
  function Arg(bind: Texts, state: Texts, key: string, stateKey: string): Option<string>
  {
    FirstNonBlank(Lookup(bind, key), Lookup(state, stateKey))
  }

  /** The value comes from the bindings when they hold a non-blank one, else from the session, else there is none. */
  predicate TakenFrom(value: Option<string>, bind: Texts, state: Texts, key: string, stateKey: string)
  {
    && (key in bind && !IsBlank(bind[key]) ==> value == Some(bind[key]))
    && ((key !in bind || IsBlank(bind[key])) && stateKey in state && !IsBlank(state[stateKey]) ==>
          value == Some(state[stateKey]))
    && ((key !in bind || IsBlank(bind[key])) && (stateKey !in state || IsBlank(state[stateKey])) ==> value == None)
  }

  lemma ArgIsTakenFrom(bind: Texts, state: Texts, key: string, stateKey: string, value: Option<string>)
    ensures TakenFrom(value, bind, state, key, stateKey) <==> value == Arg(bind, state, key, stateKey)
  {
  }

  // ----- create_lifecycle_context -----

  function NewContext(bind: Texts, state: Texts, id: string, now: int): Option<Context>
  {
    var channel := Arg(bind, state, "channelId", "channelId");
    var delivery := Arg(bind, state, "deliveryChannelId", "deliveryChannelId");
    if channel.None? then None
    else Some(Context(id, channel.value, now, None,
      Arg(bind, state, "configuredBotId", "configuredBotId"),
      Arg(bind, state, "runtimeBotInstanceId", "instanceId"),
      Arg(bind, state, "repo", "project"),
      Arg(bind, state, "requestText", "codeChange"),
      OrElse(Arg(bind, state, "status", "status"), "provisioning"),
      if Indexable(delivery) then delivery else None))
  }

  /** `id` is a fresh context id. */
  method CreateLifecycleContext(store: LifecycleContextStore?, bind: Texts, state: Texts, id: string, now: int)
    returns (result: string)
    requires store != null ==> store.Valid()
    modifies if store == null then {} else {store}
    ensures store == null ==> result == "Lifecycle context store not available."
    ensures store != null ==> store.Valid() && fresh(store.Contexts() - old(store.Contexts()))
    ensures store != null ==>
      var context := NewContext(bind, state, id, now);
      if context.None? then
        result == "Missing channelId for create_lifecycle_context." && store.Model() == old(store.Model())
      else result == id && store.Model() == Put(old(store.Model()), context.value)
  {
    if store == null { return "Lifecycle context store not available."; }
    var context := NewContext(bind, state, id, now);
    if context.None? { return "Missing channelId for create_lifecycle_context."; }
    StatusIsPresent(bind, state, id, now);
    var created := new LifecycleContext(context.value);
    store.PutContext(created);
    return id;
  }

  lemma StatusIsPresent(bind: Texts, state: Texts, id: string, now: int)
    ensures NewContext(bind, state, id, now).Some? ==> !IsBlank(NewContext(bind, state, id, now).value.status)
  {
    assert !IsWhite("provisioning"[0]);
  }

  /** The owner named by the step's binding wins over the session's, no run is known yet, and a context never starts
      with the sentinel of a failed thread. */
  lemma NewContextIsUnbound(bind: Texts, state: Texts, id: string, now: int)
    ensures var c := NewContext(bind, state, id, now);
            && (c.Some? <==> Present(Lookup(bind, "channelId")) || Present(Lookup(state, "channelId")))
            && (c.Some? ==>
                && c.value.contextId == id && c.value.externalRunId == None && !IsBlank(c.value.channelId)
                && (Present(Lookup(bind, "configuredBotId"))
                    ==> c.value.configuredBotId == Lookup(bind, "configuredBotId"))
                && (c.value.deliveryChannelId.Some? ==> Indexable(c.value.deliveryChannelId)))
  {
  }

  /** Where each part of a new context comes from. */
  lemma NewContextTakes(bind: Texts, state: Texts, id: string, now: int)
    requires NewContext(bind, state, id, now).Some?
    ensures var c := NewContext(bind, state, id, now).value;
            && c.createdAt == now && TakenFrom(Some(c.channelId), bind, state, "channelId", "channelId")
            && TakenFrom(c.configuredBotId, bind, state, "configuredBotId", "configuredBotId")
            && TakenFrom(c.runtimeBotInstanceId, bind, state, "runtimeBotInstanceId", "instanceId")
            && TakenFrom(c.repo, bind, state, "repo", "project")
            && TakenFrom(c.requestText, bind, state, "requestText", "codeChange")
            && (TakenFrom(Some(c.status), bind, state, "status", "status")
                || (c.status == "provisioning" && TakenFrom(None, bind, state, "status", "status")))
            && (TakenFrom(c.deliveryChannelId, bind, state, "deliveryChannelId", "deliveryChannelId")
                || (c.deliveryChannelId == None
                    && TakenFrom(Some(THREAD_CREATE_FAILED), bind, state, "deliveryChannelId", "deliveryChannelId")))
  {
    hide IsBlank, TakenFrom;
    var c := NewContext(bind, state, id, now).value;
    ArgIsTakenFrom(bind, state, "channelId", "channelId", Some(c.channelId));
    ArgIsTakenFrom(bind, state, "configuredBotId", "configuredBotId", c.configuredBotId);
    ArgIsTakenFrom(bind, state, "runtimeBotInstanceId", "instanceId", c.runtimeBotInstanceId);
    ArgIsTakenFrom(bind, state, "repo", "project", c.repo);
    ArgIsTakenFrom(bind, state, "requestText", "codeChange", c.requestText);
    ArgIsTakenFrom(bind, state, "status", "status", Some(c.status));
    ArgIsTakenFrom(bind, state, "status", "status", None);
    ArgIsTakenFrom(bind, state, "deliveryChannelId", "deliveryChannelId", c.deliveryChannelId);
    ArgIsTakenFrom(bind, state, "deliveryChannelId", "deliveryChannelId", Some(THREAD_CREATE_FAILED));
  }

  // ----- create_thread -----

  /** The gateway that creates the thread: the room owner's, else the default one. */
  function ThreadGateway(t: Table, m: Store, channel: Option<string>): Option<Gateway>
  {
    var own := GatewayFor(t, m, channel);
    if own.Some? then own else t.defaultGateway
  }

  /** In an owned room the thread is created through the owner's gateway or not at all exactly when the owner has a
      gateway or there is no default one: creating threads, unlike sending, falls back. */
  lemma ThreadStaysWithOwner(t: Table, m: Store, channel: Option<string>, owner: string)
    requires OwnerOf(ByTarget(m, channel)) == Some(owner)
    ensures ThreadGateway(t, m, channel) == Lookup(t.gateways, owner) <==> owner in t.gateways || t.defaultGateway.None?
  {
  }

  /** A room of "arrietty", which has no gateway: its thread is created through the default gateway, through which no
      message to the room may leave. */
  lemma ThreadLeavesOwner(c: Context)
    requires c.contextId == "c" && c.channelId == "room" && c.configuredBotId == Some("arrietty")
    ensures var m, t := Replay([DoPut(c)], 1), Table(map[], map[], None, Some(Gateway("luna")));
            && OwnerOf(ByTarget(m, Some("room"))) == Some("arrietty")
            && ThreadGateway(t, m, Some("room")) == Some(Gateway("luna")) && GatewayFor(t, m, Some("room")) == None
  {
    assert Replay([DoPut(c)], 1) == Do(Replay([DoPut(c)], 0), DoPut(c));
    assert !IsWhite("room"[0]) && !IsWhite("arrietty"[0]);
  }

  /** The new thread's id, or None when there is no room, no connected gateway, or no thread. */
  function ThreadAnswer(t: Table, m: Store, bind: Texts, state: Texts, connected: Gateway -> bool,
                        create: (Gateway, string, string) -> Option<string>): Option<string>
  {
    var channel := Arg(bind, state, "channelId", "channelId");
    var gateway := ThreadGateway(t, m, channel);
    if channel.None? || gateway.None? || !connected(gateway.value) then None
    else create(gateway.value, channel.value, OrElse(Arg(bind, state, "threadName", "threadName"), "Room updates"))
  }

  /** The gateway asked for a thread: the registered one of the room's owner, else the default one. */
  predicate IsAsked(t: Table, m: Store, channel: string, gateway: Option<Gateway>)
  {
    var context := ByTarget(m, Some(channel));
    if context.Some? && Present(context.value.configuredBotId) && context.value.configuredBotId.value in t.gateways
    then gateway == Some(t.gateways[context.value.configuredBotId.value])
    else gateway == t.defaultGateway
  }

  /** A thread is what the connected gateway creates in the room, under the given name or "Room updates"; without a
      room, a gateway or a connection there is none. */
  lemma ThreadIsCreatedWhen(t: Table, m: Store, bind: Texts, state: Texts, connected: Gateway -> bool,
                            create: (Gateway, string, string) -> Option<string>, gateway: Option<Gateway>, name: string)
    ensures TakenFrom(None, bind, state, "channelId", "channelId") ==>
      ThreadAnswer(t, m, bind, state, connected, create) == None
    ensures forall channel | TakenFrom(Some(channel), bind, state, "channelId", "channelId")
                             && IsAsked(t, m, channel, gateway) ::
      && (gateway.None? || !connected(gateway.value) ==> ThreadAnswer(t, m, bind, state, connected, create) == None)
      && (gateway.Some? && connected(gateway.value) && NamedThread(bind, state, name) ==>
            ThreadAnswer(t, m, bind, state, connected, create) == create(gateway.value, channel, name))
  {
    hide IsBlank, TakenFrom, ByTarget;
    forall channel ensures TakenFrom(channel, bind, state, "channelId", "channelId")
                      <==> channel == Arg(bind, state, "channelId", "channelId")
    {
      ArgIsTakenFrom(bind, state, "channelId", "channelId", channel);
    }
    ArgIsTakenFrom(bind, state, "threadName", "threadName", Some(name));
    ArgIsTakenFrom(bind, state, "threadName", "threadName", None);
  }

  predicate NamedThread(bind: Texts, state: Texts, name: string)
  {
    || TakenFrom(Some(name), bind, state, "threadName", "threadName")
    || (name == "Room updates" && TakenFrom(None, bind, state, "threadName", "threadName"))
  }

  /** A created thread leads to its context from then on, unless its id is a room's. */
  lemma ThreadLeadsToContext(h: History, id: string, thread: Option<string>)
    requires Indexable(thread) && id in Replay(h, |h|).byId && thread.value !in Replay(h, |h|).byChannel
    ensures var m := Replay(h, |h|);
            thread.value != m.byId[id].channelId ==>
              var c := ByTarget(SetTarget(m, id, thread), thread);
              c.Some? && c.value.contextId == id && c.value.deliveryChannelId == thread
              && c.value.configuredBotId == m.byId[id].configuredBotId && c.value.channelId == m.byId[id].channelId
  {
    hide Replay, IsBlank, NormalStatus, Released;
    TargetsAreSound(h, |h|);
  }

  method AskForThread(router: OutboundDeliveryRouter, bind: Texts, state: Texts, connected: Gateway -> bool,
                      create: (Gateway, string, string) -> Option<string>)
    returns (thread: Option<string>)
    ensures thread == ThreadAnswer(router.Routes(), router.store.Model(), bind, state, connected, create)
  {
    hide IsBlank, ByTarget;
    var channel := Arg(bind, state, "channelId", "channelId");
    if channel.None? { return None; }
    var gateway := router.GetGatewayForChannel(channel);
    if gateway.None? {
      gateway := router.defaultGateway;
    }
    if gateway.None? || !connected(gateway.value) { return None; }
    var name := OrElse(Arg(bind, state, "threadName", "threadName"), "Room updates");
    return create(gateway.value, channel.value, name);
  }

  /** Creates the room's thread and makes it the context's delivery target; a failure leaves the store alone. */
  method CreateThread(router: OutboundDeliveryRouter, store: LifecycleContextStore, bind: Texts, state: Texts,
                      connected: Gateway -> bool, create: (Gateway, string, string) -> Option<string>)
    returns (result: string)
    requires store.Valid()
    modifies store
    ensures store.Valid() && fresh(store.Contexts() - old(store.Contexts()))
    ensures var answer := ThreadAnswer(old(router.Routes()), old(router.store.Model()), bind, state, connected, create);
            var id := Arg(bind, state, "contextId", "contextId");
            && result == OrElse(answer, THREAD_CREATE_FAILED)
            && store.Model() == if id.Some? then SetTarget(old(store.Model()), id.value, answer) else old(store.Model())
  {
    hide IsBlank, ThreadAnswer, Put;
    ghost var routes, before := router.Routes(), router.store.Model();
    var thread := AskForThread(router, bind, state, connected, create);
    assert router.Routes() == routes && router.store.Model() == before;
    var id := Arg(bind, state, "contextId", "contextId");
    if Present(thread) && id.Some? {
      store.SetDeliveryTargetId(id.value, thread);
    } else {
      assert !Indexable(thread) || id.None?;
    }
    return OrElse(thread, THREAD_CREATE_FAILED);
  }

  // ----- launch_cursor_run -----

  datatype LaunchAnswer =
    | LaunchOk(id: string, branchName: Option<string>, agentUrl: Option<string>, status: Option<string>)
    | LaunchFailed(message: string)

  function NormalizeRepository(project: string): Option<string>
  {
    var t := Trim(project);
    if ChannelName.GITHUB <= t then Some(t)
    else if ChannelName.RepoPath(t) then Some(ChannelName.GITHUB + t)
    else None
  }

  function Change(args: Texts): Option<string>
  {
    FirstNonBlank(Lookup(args, "codeChange"), Lookup(args, "changeDescription"))
  }

  /** Why the action answers without launching, if it does. */
  function Refusal(args: Texts): Option<string>
  {
    if !Present(Lookup(args, "project")) then Some("Missing project in state.")
    else if Change(args).None? then Some("Missing feature request in state.")
    else if !Present(Lookup(args, "__sessionKey")) then Some("Missing workflow session key.")
    else if NormalizeRepository(args["project"]).None? then Some("Could not resolve project.")
    else None
  }

  /** The address of a repository: a GitHub address as it is, an owner/name path on GitHub, anything else unknown. */
  lemma RepositoryIsKnownWhen(project: string)
    ensures var t := Trim(project);
            && (ChannelName.GITHUB <= t ==> NormalizeRepository(project) == Some(t))
            && (!(ChannelName.GITHUB <= t) && ChannelName.RepoPath(t) ==>
                  NormalizeRepository(project) == Some("https://github.com/" + t))
            && (!(ChannelName.GITHUB <= t) && !ChannelName.RepoPath(t) ==> NormalizeRepository(project) == None)
  {
  }

  predicate Holds(args: Texts, key: string)
  {
    key in args && !IsBlank(args[key])
  }

  /** A launch goes ahead exactly when repository, request and session are there and the repository is known; otherwise
      the first missing one is named. */
  lemma RefusedExactlyWhen(args: Texts)
    ensures var known := Holds(args, "project") && NormalizeRepository(args["project"]).Some?;
            var asked := Holds(args, "codeChange") || Holds(args, "changeDescription");
            && (Refusal(args).None? <==> known && asked && Holds(args, "__sessionKey"))
            && (!Holds(args, "project") ==> Refusal(args) == Some("Missing project in state."))
            && (Holds(args, "project") && !asked ==> Refusal(args) == Some("Missing feature request in state."))
            && (Holds(args, "project") && asked && !Holds(args, "__sessionKey") ==>
                  Refusal(args) == Some("Missing workflow session key."))
            && (Holds(args, "project") && asked && Holds(args, "__sessionKey") && !known ==>
                  Refusal(args) == Some("Could not resolve project."))
  {
    hide IsBlank, NormalizeRepository;
  }

  /** What the record of a launched run holds. */
  lemma LaunchedRecordHolds(args: Texts, meta: Texts, launch: LaunchAnswer, branch: string)
    requires launch.LaunchOk?
    ensures var r := RunRecordOf(args, meta, launch, branch);
            && r.agentId == launch.id && r.agentUrl == launch.agentUrl && r.status == launch.status
            && r.branchName == (if Present(launch.branchName) then launch.branchName else Some(branch))
            && r.channelId == (if Holds(args, "channelId") then Some(args["channelId"]) else Lookup(meta, "channelId"))
            && r.replyToMessageId == Lookup(meta, "messageId")
            && r.deliveryChannelId == Lookup(args, "deliveryChannelId")
            && r.prUrl == None == r.summary && r.lastAssistantMessageId == None == r.lastAssistantMessage
            && r.completedAt == None == r.lastPolledAt && !r.terminalSent
  {
    hide IsBlank;
  }

  /** What a launch writes: the run's record, the session's last run, and the author's last repository if there is an
      author. */
  lemma LaunchWritesThese(args: Texts, meta: Texts, launch: LaunchAnswer, w: WorkflowModel.Write)
    requires launch.LaunchOk? && Refusal(args).None?
    ensures w in LaunchWrites(args, meta, launch)
       <==> || w == WorkflowModel.RunRecord(launch.id)
            || w == WorkflowModel.SessionRun(args["__sessionKey"], launch.id)
            || (Holds(meta, "authorId") && w == WorkflowModel.LastRepo(meta["authorId"], args["project"]))
  {
    hide IsBlank, NormalizeRepository;
  }

  /** The acknowledgement names repository, branch and, if there is one, the agent's address. */
  lemma AcknowledgementNames(args: Texts, r: RunMonitor.Record, url: string, branch: string)
    requires "project" in args && NormalizeRepository(args["project"]) == Some(url) && r.branchName == Some(branch)
    ensures var agent := if Present(r.agentUrl) then " Agent: " + r.agentUrl.value else "";
            Acknowledgement(args, r)
              == "Launching Cursor Cloud run for `" + url + "` on branch `" + branch + "`." + agent
                 + " Status: launching. Updates will appear in your dedicated lifecycle room."
  {
    hide IsBlank, NormalizeRepository;
    if Present(r.agentUrl) {
      assert " Agent: " + r.agentUrl.value + "" == " Agent: " + r.agentUrl.value;
    }
  }

  /** The room the run reports to: the bound channel, else the channel of the event itself. */
  function RunRecordOf(args: Texts, meta: Texts, launch: LaunchAnswer, branch: string): RunMonitor.Record
    requires launch.LaunchOk?
  {
    RunMonitor.Launched(launch.id, Some(OrElse(FirstNonBlank(launch.branchName, None), branch)), launch.agentUrl,
      if Present(Lookup(args, "channelId")) then Lookup(args, "channelId") else Lookup(meta, "channelId"),
      Lookup(meta, "messageId"), Lookup(args, "deliveryChannelId"), launch.status)
  }

  function Acknowledgement(args: Texts, r: RunMonitor.Record): string
    requires "project" in args
  {
    "Launching Cursor Cloud run for `" + OrElse(NormalizeRepository(args["project"]), "") + "` on branch `"
    + OrElse(r.branchName, "") + "`." + RunMonitor.Appended(" Agent: ", r.agentUrl, "")
    + " Status: launching. Updates will appear in your dedicated lifecycle room."
  }

  function LaunchWrites(args: Texts, meta: Texts, launch: LaunchAnswer): seq<WorkflowModel.Write>
    requires launch.LaunchOk? && Refusal(args).None?
  {
    [WorkflowModel.RunRecord(launch.id), WorkflowModel.SessionRun(args["__sessionKey"], launch.id)]
    + if Present(Lookup(meta, "authorId")) then [WorkflowModel.LastRepo(meta["authorId"], args["project"])] else []
  }

  /** What a launch does to the context named in its arguments. */
  function Activated(m: Store, id: Option<string>, run: string): Store
  {
    if Present(id) then SetStatus(BindRun(m, id.value, Some(run)), id.value, "active") else m
  }

  /** `branch` is the branch name built from the request and the clock; `wired` says whether the remote service and the
      state store are there. */
  method LaunchCursorRun(store: LifecycleContextStore?, wired: bool, bind: Texts, state: Texts, meta: Texts,
                         launch: LaunchAnswer, branch: string)
    returns (result: string, record: Option<RunMonitor.Record>, writes: seq<WorkflowModel.Write>)
    requires store != null ==> store.Valid()
    modifies if store == null then {} else {store} + store.Contexts()
    ensures store != null ==> store.Valid() && store.Contexts() == old(store.Contexts())
    ensures !wired || store == null ==>
      && result == "Launch cursor run dependencies not available." && record == None && writes == []
      && (store != null ==> store.Model() == old(store.Model()))
    ensures wired && store != null ==>
            var args := if bind != map[] then bind else state;
            if Refusal(args).Some? || launch.LaunchFailed? then
              && record == None && writes == [] && store.Model() == old(store.Model())
              && result == (if Refusal(args).Some? then Refusal(args).value
                            else "Cursor launch failed: " + launch.message)
            else
              && record == Some(RunRecordOf(args, meta, launch, branch))
              && writes == LaunchWrites(args, meta, launch)
              && store.Model() == Activated(old(store.Model()), Lookup(args, "contextId"), launch.id)
              && result == Acknowledgement(args, record.value)
  {
    hide IsBlank, NormalizeRepository, Acknowledgement, RunRecordOf, BindRun, SetStatus, Change;
    if !wired || store == null { return "Launch cursor run dependencies not available.", None, []; }
    var args := if bind != map[] then bind else state;
    if Refusal(args).Some? { return Refusal(args).value, None, []; }
    if launch.LaunchFailed? { return "Cursor launch failed: " + launch.message, None, []; }
    var r := RunRecordOf(args, meta, launch, branch);
    writes := [WorkflowModel.RunRecord(launch.id), WorkflowModel.SessionRun(args["__sessionKey"], launch.id)];
    if Present(Lookup(meta, "authorId")) {
      writes := writes + [WorkflowModel.LastRepo(meta["authorId"], args["project"])];
    }
    var id := Lookup(args, "contextId");
    if Present(id) {
      store.BindExternalRunId(id, Some(launch.id));
      store.SetStatusOf(id.value, "active");
    }
    return Acknowledgement(args, r), Some(r), writes;
  }

  // ----- post_channel_message -----

  /** The target of a posted message. */
  function PostTarget(bind: Texts, state: Texts): Option<string>
  {
    var channel := Arg(bind, state, "channelId", "channelId");
    if channel.None? then None
    else
      var target := FirstNonBlank(Arg(bind, state, "deliveryChannelId", "deliveryChannelId"), channel);
      if target == Some(THREAD_CREATE_FAILED) then channel else target
  }

  /** Posted messages and monitor updates about a room choose the same target. */
  lemma PostTargetIsMessageTarget(bind: Texts, state: Texts)
    ensures var channel := Arg(bind, state, "channelId", "channelId");
            PostTarget(bind, state) == if channel.None? then None
              else Some(MessageTarget(channel.value, Arg(bind, state, "deliveryChannelId", "deliveryChannelId")))
  {
  }

  // ----- convergence -----

  /** The store after the three actions: the context is put, its thread is set when there is one, its run is bound. */
  function Provisioned(m: Store, c: Context, thread: Option<string>, run: string): Store
  {
    Activated(SetTarget(Put(m, c), c.contextId, thread), Some(c.contextId), run)
  }

  /** The context as the three actions leave it. */
  function FinalContext(c: Context, thread: Option<string>, run: string): Context
  {
    c.(deliveryChannelId := if Indexable(thread) then thread else c.deliveryChannelId,
       externalRunId := Some(run), status := "active")
  }

  /** A new context under fresh ids. */
  predicate FreshRoom(m: Store, c: Context, thread: Option<string>, run: string)
  {
    && c.contextId !in m.byId && c.externalRunId == None
    && !IsBlank(c.contextId) && !IsBlank(c.channelId) && !IsBlank(run)
    && (Indexable(thread) ==> thread.value !in m.byChannel)
  }

  /** Neither the target the context starts with nor its thread is another context's target. */
  predicate UnsharedRoom(m: Store, c: Context, thread: Option<string>)
  {
    Unshared(m, c.contextId, c.deliveryChannelId) && Unshared(m, c.contextId, thread)
  }

  lemma ProvisioningStaysExact(m: Store, c: Context, thread: Option<string>, run: string)
    requires TargetsExact(m) && UnsharedRoom(m, c, thread)
    ensures TargetsExact(Provisioned(m, c, thread, run))
  {
    hide TargetsExact, IsBlank;
    DoKeepsExact(m, DoPut(c));
    var put := Put(m, c);
    DoKeepsExact(put, DoSetTarget(c.contextId, thread));
    var targeted := SetTarget(put, c.contextId, thread);
    DoKeepsExact(targeted, DoBindRun(c.contextId, Some(run)));
    DoKeepsExact(BindRun(targeted, c.contextId, Some(run)), DoSetStatus(c.contextId, "active"));
  }

  /** What the primary map and the indexes hold after provisioning. */
  lemma ProvisionedMaps(m: Store, c: Context, thread: Option<string>, run: string)
    requires FreshRoom(m, c, thread, run)
    ensures var after := Provisioned(m, c, thread, run);
            && after.byId == m.byId[c.contextId := FinalContext(c, thread, run)]
            && after.byChannel == m.byChannel[c.channelId := c.contextId]
            && after.byRun == m.byRun[run := c.contextId]
            && (Indexable(thread) ==> Lookup(after.byTarget, thread.value) == Some(c.contextId))
  {
    hide IsBlank;
    ActiveIsPresent();
  }

  lemma ActiveIsPresent()
    ensures !IsBlank("active") && !IsBlank("provisioning")
  {
    assert !IsWhite("active"[0]) && !IsWhite("provisioning"[0]);
  }

  /** From any store, lookups by room, by run and, when the thread was created, by thread all answer with the same
      context, owned by the bound bot and active, and no other context changes. The delivery index stays exact if it
      was and no target is shared. */
  lemma ProvisioningConverges(m: Store, c: Context, thread: Option<string>, run: string)
    requires FreshRoom(m, c, thread, run)
    ensures var after, f := Provisioned(m, c, thread, run), FinalContext(c, thread, run);
            && ByChannel(after, Some(c.channelId)) == Some(f) && ByRun(after, Some(run)) == Some(f)
            && ByTarget(after, Some(c.channelId)) == Some(f)
            && (Indexable(thread) ==> ByTarget(after, thread) == Some(f))
            && f.configuredBotId == c.configuredBotId && f.status == "active"
            && (forall id :: id in m.byId ==> ById(after, id) == ById(m, id))
            && (TargetsExact(m) && UnsharedRoom(m, c, thread) ==> TargetsExact(after))
  {
    hide Provisioned, IsBlank, TargetsExact, UnsharedRoom;
    if TargetsExact(m) && UnsharedRoom(m, c, thread) {
      ProvisioningStaysExact(m, c, thread, run);
    }
    ProvisionedMaps(m, c, thread, run);
  }

  /** From provisioning to speech, from any store: in a room provisioned for an owner that handles owned spaces,
      Discord events of the room are routed to the owner alone, and messages to the room, or to the thread the session
      remembers (its id or the sentinel of a failed creation), leave through the owner's sender and gateway or not at
      all. */
  lemma ProvisionedRoomSpeaksAsOwner(m: Store, c: Context, thread: Option<string>, run: string, owner: string,
                                     t: Table, rules: seq<Routing>, handles: map<string, bool>, event: Event)
    requires FreshRoom(m, c, thread, run) && c.configuredBotId == Some(owner) && !IsBlank(owner)
    ensures var after := Provisioned(m, c, thread, run);
            var target := MessageTarget(c.channelId, Some(OrElse(thread, THREAD_CREATE_FAILED)));
            && SenderFor(t, after, target) == SenderFor(t, after, c.channelId) == Lookup(t.senders, owner)
            && GatewayFor(t, after, Some(target)) == GatewayFor(t, after, Some(c.channelId))
            && GatewayFor(t, after, Some(target)) == Lookup(t.gateways, owner)
            && (Lookup(handles, owner) == Some(true)
                && SourceType(event) == "discord" && ChannelId(event) == Some(c.channelId)
                ==> Route(after, rules, handles, event) == [owner])
  {
    hide Provisioned, IsBlank, Route, TargetsExact, UnsharedRoom;
    ProvisioningConverges(m, c, thread, run);
    var after, f := Provisioned(m, c, thread, run), FinalContext(c, thread, run);
    OwnerOfRoom(after, t, rules, handles, c.channelId, f, owner, event);
  }

  // ----- the three actions as the program runs them -----

  /** What a session must hold for its room to be provisioned. */
  predicate Launchable(session: Texts)
  {
    Present(Lookup(session, "channelId")) && Refusal(session).None?
  }

  /** What the session holds when the run is launched: context and thread are stored by the steps before. */
  function Known(session: Texts, id: string, thread: string): Texts
  {
    session["contextId" := id]["deliveryChannelId" := thread]
  }

  lemma KnownReads(session: Texts, id: string, thread: string)
    requires Launchable(session)
    ensures var known := Known(session, id, thread);
            && Refusal(session["contextId" := id]).None? && Refusal(known).None?
            && Lookup(known, "contextId") == Lookup(session["contextId" := id], "contextId") == Some(id)
            && Lookup(known, "channelId") == Lookup(session, "channelId")
            && Lookup(known, "deliveryChannelId") == Some(thread)
  {
    hide IsBlank, NormalizeRepository;
    var known := Known(session, id, thread);
    assert |"contextId"| == 9 && |"deliveryChannelId"| == 17 && |"project"| == 7 && |"codeChange"| == 10;
    assert |"__sessionKey"| == 12 && "contextId"[1] != "channelId"[1];
    assert "deliveryChannelId"[0] != "changeDescription"[0];
    assert Lookup(known, "project") == Lookup(session["contextId" := id], "project") == Lookup(session, "project");
    assert Change(known) == Change(session["contextId" := id]) == Change(session);
  }

  /** The context that a launchable session gets. */
  function RoomContext(session: Texts, owner: string, id: string, now: int): Context
    requires Launchable(session)
  {
    NewContext(session["configuredBotId" := owner], session, id, now).value
  }

  lemma RoomContextShape(session: Texts, owner: string, id: string, now: int)
    requires Launchable(session) && !IsBlank(owner)
    ensures var c := RoomContext(session, owner, id, now);
            && NewContext(session["configuredBotId" := owner], session, id, now) == Some(c)
            && Some(c.channelId) == Lookup(session, "channelId") && c.contextId == id
            && c.configuredBotId == Some(owner)
  {
    hide IsBlank;
    NewContextIsUnbound(session["configuredBotId" := owner], session, id, now);
    assert |"configuredBotId"| == 15 && |"channelId"| == 9;
  }

  /** Every update of the run goes to the room or its thread. */
  lemma RecordAddressesRoom(known: Texts, meta: Texts, launch: LaunchAnswer, branch: string, room: string,
                            thread: string, u: RunMonitor.Update)
    requires launch.LaunchOk? && !IsBlank(room)
    requires Lookup(known, "channelId") == Some(room) && Lookup(known, "deliveryChannelId") == Some(thread)
    ensures RunMonitor.Addressed(RunRecordOf(known, meta, launch, branch), u).target
         == Some(MessageTarget(room, Some(thread)))
  {
    hide IsBlank;
    MonitorAddressesTarget(RunRecordOf(known, meta, launch, branch), u, room);
  }

  /** The update leaves through the owner's sender, or not at all when the owner has none. */
  predicate LeavesAs(owner: string, t: Table, m: Store, record: RunMonitor.Record, u: RunMonitor.Update)
  {
    var target := RunMonitor.Addressed(record, u).target;
    target.Some? && SenderFor(t, m, target.value) == Lookup(t.senders, owner)
  }

  /** In this store every update for the run leaves as the owner. */
  ghost predicate SpeaksAs(owner: string, m: Store, record: RunMonitor.Record)
  {
    forall t, u :: LeavesAs(owner, t, m, record, u)
  }

  /** The three actions in the order of the program, each seeing what the ones before stored in the session, with fresh
      ids from the world: afterwards room, run and thread all lead to one active context owned by the bound bot, and
      while the store stays like that every update of the launched run, addressed to the room or its thread, leaves
      through the owner's sender or not at all. Module Ownership says how long that lasts. */
  method ProvisionRoom(store: LifecycleContextStore, router: OutboundDeliveryRouter, owner: string, session: Texts,
                       meta: Texts, id: string, now: int, connected: Gateway -> bool,
                       create: (Gateway, string, string) -> Option<string>, launch: LaunchAnswer, branch: string)
    returns (thread: string, record: RunMonitor.Record)
    requires store.Valid() && launch.LaunchOk? && Launchable(session) && !IsBlank(owner)
    requires FreshRoom(store.Model(), RoomContext(session, owner, id, now), None, launch.id)
    requires forall g, parent, name ::
      FreshRoom(store.Model(), RoomContext(session, owner, id, now), create(g, parent, name), launch.id)
    modifies store, store.Contexts()
    ensures store.Valid()
    ensures TargetsExact(old(store.Model()))
         && UnsharedRoom(old(store.Model()), RoomContext(session, owner, id, now), Some(thread))
        ==> TargetsExact(store.Model())
    ensures var m, room := store.Model(), Lookup(session, "channelId");
            && ByChannel(m, room).Some? && ByRun(m, Some(launch.id)) == ByChannel(m, room)
            && (Indexable(Some(thread)) ==> ByTarget(m, Some(thread)) == ByChannel(m, room))
            && OwnerOf(ByChannel(m, room)) == Some(owner) && ByChannel(m, room).value.status == "active"
    ensures store.Model()
         == Provisioned(old(store.Model()), RoomContext(session, owner, id, now), Some(thread), launch.id)
    ensures record.agentId == launch.id && SpeaksAs(owner, store.Model(), record)
    ensures forall u :: RunMonitor.Addressed(record, u).target
                     == Some(MessageTarget(RoomContext(session, owner, id, now).channelId, Some(thread)))
  {
    hide IsBlank, TargetsExact, UnsharedRoom, Refusal, Put, Provisioned, FreshRoom, NewContext, ThreadAnswer,
         RoomContext, Acknowledgement, RunRecordOf, SpeaksAs;
    ghost var before, c := store.Model(), RoomContext(session, owner, id, now);
    RoomContextShape(session, owner, id, now);
    var contextId := CreateLifecycleContext(store, session["configuredBotId" := owner], session, id, now);
    var known := session["contextId" := contextId];
    ghost var answer := ThreadAnswer(router.Routes(), router.store.Model(), known, known, connected, create);
    AnswersAreFresh(router.Routes(), router.store.Model(), known, connected, create, before, c, launch.id);
    thread := CreateThread(router, store, known, known, connected, create);
    KnownReads(session, id, thread);
    known := known["deliveryChannelId" := thread];
    var result, launched, writes := LaunchCursorRun(store, true, known, known, meta, launch, branch);
    record := launched.value;
    assert store.Model() == Provisioned(before, c, answer, launch.id) by {
      ProvisionedSteps(known, id, before, c, launch.id);
    }
    ProvisioningConverges(before, c, answer, launch.id);
    SentinelIsNoTarget(before, c, answer, launch.id);
    forall u {
      RecordAddressesRoom(known, meta, launch, branch, c.channelId, thread, u);
    }
    LaunchedRunSpeaksAsOwner(before, c, answer, owner, known, meta, launch, branch);
  }

  lemma LaunchedRunSpeaksAsOwner(m: Store, c: Context, answer: Option<string>, owner: string, known: Texts, meta: Texts,
                                 launch: LaunchAnswer, branch: string)
    requires launch.LaunchOk? && FreshRoom(m, c, answer, launch.id)
    requires c.configuredBotId == Some(owner) && !IsBlank(owner)
    requires Lookup(known, "channelId") == Some(c.channelId)
    requires Lookup(known, "deliveryChannelId") == Some(OrElse(answer, THREAD_CREATE_FAILED))
    ensures var r := RunRecordOf(known, meta, launch, branch);
            r.agentId == launch.id && SpeaksAs(owner, Provisioned(m, c, answer, launch.id), r)
  {
    hide IsBlank, Provisioned, SenderFor, GatewayFor, Route, RunMonitor.Addressed;
    var r := RunRecordOf(known, meta, launch, branch);
    forall t, u ensures LeavesAs(owner, t, Provisioned(m, c, answer, launch.id), r, u) {
      RecordAddressesRoom(known, meta, launch, branch, c.channelId, OrElse(answer, THREAD_CREATE_FAILED), u);
      ProvisionedRoomSpeaksAsOwner(m, c, answer, launch.id, owner, t, [], map[], WorkflowModel.Event("", "", map[]));
    }
  }

  lemma SentinelIsNoTarget(m: Store, c: Context, answer: Option<string>, run: string)
    ensures Provisioned(m, c, answer, run) == Provisioned(m, c, Some(OrElse(answer, THREAD_CREATE_FAILED)), run)
    ensures UnsharedRoom(m, c, Some(OrElse(answer, THREAD_CREATE_FAILED))) ==> UnsharedRoom(m, c, answer)
  {
  }

  lemma AnswersAreFresh(t: Table, m: Store, known: Texts, connected: Gateway -> bool,
                        create: (Gateway, string, string) -> Option<string>, before: Store, c: Context, run: string)
    requires FreshRoom(before, c, None, run)
    requires forall g, parent, name :: FreshRoom(before, c, create(g, parent, name), run)
    ensures FreshRoom(before, c, ThreadAnswer(t, m, known, known, connected, create), run)
  {
    hide FreshRoom;
  }

  lemma ProvisionedSteps(known: Texts, id: string, before: Store, c: Context, run: string)
    requires Lookup(known, "contextId") == Some(id) && FreshRoom(before, c, None, run) && c.contextId == id
    ensures Arg(known, known, "contextId", "contextId") == Some(id)
    ensures forall answer ::
      Provisioned(before, c, answer, run) == Activated(SetTarget(Put(before, c), id, answer), Some(id), run)
  {
  }
}
