/** Who handles events of a room and who speaks in it: the inbound router, the outbound delivery router, and the
    identity of the room's owner end to end. */
module Delivery {
  import opened Text
  import opened Lifecycle
  import WorkflowModel
  import SessionKeys
  import RunMonitor

  // ----- outbound -----

  datatype Sender = Sender(name: string)

  datatype Gateway = Gateway(name: string)

  datatype Delivered = Delivered(sender: Sender, channelId: string, messageId: Option<string>, content: string)

  datatype Table = Table(
    senders: map<string, Sender>,
    gateways: map<string, Gateway>,
    defaultSender: Option<Sender>,
    defaultGateway: Option<Gateway>)

  function OwnerOf(context: Option<Context>): Option<string>
  {
    if context.Some? && Present(context.value.configuredBotId) then context.value.configuredBotId else None
  }

  /** The owner's sender in an owned place, with no fallback; the default sender elsewhere. */
  function SenderFor(t: Table, m: Store, channel: string): Option<Sender>
  {
    var owner := OwnerOf(ByTarget(m, Some(channel)));
    if owner.Some? then Lookup(t.senders, owner.value) else t.defaultSender
  }

  function GatewayFor(t: Table, m: Store, channel: Option<string>): Option<Gateway>
  {
    var owner := OwnerOf(ByTarget(m, channel));
    if owner.Some? then Lookup(t.gateways, owner.value) else t.defaultGateway
  }

  class OutboundDeliveryRouter {
    const store: LifecycleContextStore
    var botIdToSender: map<string, Sender>
    var botIdToGateway: map<string, Gateway>
    var defaultSender: Option<Sender>
    var defaultGateway: Option<Gateway>
    var delivered: seq<Delivered>  // what the senders have been given so far

    function Routes(): Table
      reads this
    {
      Table(botIdToSender, botIdToGateway, defaultSender, defaultGateway)
    }

    constructor (store: LifecycleContextStore)
      ensures this.store == store && Routes() == Table(map[], map[], None, None) && delivered == []
    {
      this.store := store;
      botIdToSender, botIdToGateway, defaultSender, defaultGateway, delivered := map[], map[], None, None, [];
    }

    method RegisterSender(botId: Option<string>, sender: Option<Sender>, gateway: Option<Gateway>)
      modifies this
      ensures delivered == old(delivered)
      ensures Routes() == if !Present(botId) then old(Routes()) else old(Routes()).(
          senders := if sender.Some? then old(botIdToSender)[botId.value := sender.value] else old(botIdToSender),
          gateways := if gateway.Some? then old(botIdToGateway)[botId.value := gateway.value] else old(botIdToGateway))
    {
      if !Present(botId) { return; }
      if sender.Some? {
        botIdToSender := botIdToSender[botId.value := sender.value];
      }
      if gateway.Some? {
        botIdToGateway := botIdToGateway[botId.value := gateway.value];
      }
    }

    method GetGatewayForChannel(channel: Option<string>) returns (gateway: Option<Gateway>)
      ensures gateway == GatewayFor(Routes(), store.Model(), channel)
    {
      if !Present(channel) { return defaultGateway; }
      var context := store.GetByDeliveryTargetId(channel);
      if context != null && Present(context.configuredBotId) {
        return Lookup(botIdToGateway, context.configuredBotId.value);
      }
      return defaultGateway;
    }

    method Send(channel: Option<string>, messageId: Option<string>, content: Option<string>)
      modifies this`delivered
      ensures delivered == old(delivered) +
        if channel.None? || content.None? || SenderFor(Routes(), store.Model(), channel.value).None? then []
        else [Delivered(SenderFor(Routes(), store.Model(), channel.value).value, channel.value, messageId,
                        content.value)]
    {
      if channel.None? || content.None? { return; }
      var context := store.GetByDeliveryTargetId(channel);
      var sender;
      if context != null && Present(context.configuredBotId) {
        sender := Lookup(botIdToSender, context.configuredBotId.value);
        if sender.None? { return; }
      } else {
        sender := defaultSender;
      }
      if sender.Some? {
        delivered := delivered + [Delivered(sender.value, channel.value, messageId, content.value)];
      }
    }
  }

  // ----- inbound -----

  type Event = WorkflowModel.Event

  /** A routing rule; its filter is an arbitrary predicate on events. */
  datatype Routing = Routing(botId: string, accepts: Event -> bool)

  function Accepting(rules: seq<Routing>, event: Event): seq<string>
  {
    if rules == [] then []
    else
      var last := rules[|rules| - 1];
      Accepting(rules[..|rules| - 1], event) + if last.accepts(event) then [last.botId] else []
  }

  /** Each accepting rule contributes its bot, in the order of the rules. */
  lemma {:induction false} AcceptingAppend(a: seq<Routing>, b: seq<Routing>, event: Event)
    ensures Accepting(a + b, event) == Accepting(a, event) + Accepting(b, event)
    ensures |b| == 1 ==> Accepting(b, event) == if b[0].accepts(event) then [b[0].botId] else []
    decreases |b|
  {
    if b == [] {
      assert a + b == a;
    } else {
      var n := |b| - 1;
      var last := if b[n].accepts(event) then [b[n].botId] else [];
      assert (a + b)[..|a + b| - 1] == a + b[..n] && (a + b)[|a + b| - 1] == b[n];
      AcceptingAppend(a, b[..n], event);
      assert Accepting(a, event) + (Accepting(b[..n], event) + last)
          == (Accepting(a, event) + Accepting(b[..n], event)) + last;
      if |b| == 1 {
        assert b[..0] == [] && b[n] == b[0];
        assert [] + last == last;
      }
    }
  }

  /** First occurrences, in order. */
  function Dedupe(ids: seq<string>): seq<string>
  {
    if ids == [] then []
    else
      var before, last := Dedupe(ids[..|ids| - 1]), ids[|ids| - 1];
      if last in before then before else before + [last]
  }

  lemma {:induction false} DedupeKeepsFirsts(ids: seq<string>)
    ensures forall id :: id in Dedupe(ids) <==> id in ids
    ensures forall i, j :: 0 <= i < j < |Dedupe(ids)| ==> Dedupe(ids)[i] != Dedupe(ids)[j]
  {
    if ids != [] {
      DedupeKeepsFirsts(ids[..|ids| - 1]);
      assert ids == ids[..|ids| - 1] + [ids[|ids| - 1]];
    }
  }

  /** Where an id occurs first. */
  function FirstAt(ids: seq<string>, id: string): nat
    requires id in ids
    ensures FirstAt(ids, id) < |ids| && ids[FirstAt(ids, id)] == id
    ensures forall i :: 0 <= i < FirstAt(ids, id) ==> ids[i] != id
  {
    if ids[0] == id then 0 else 1 + FirstAt(ids[1..], id)
  }

  /** The ids stay in the order of their first occurrences. */
  lemma {:induction false} DedupeKeepsOrder(ids: seq<string>)
    ensures forall id :: id in Dedupe(ids) ==> id in ids
    ensures forall i, j :: 0 <= i < j < |Dedupe(ids)| ==> FirstAt(ids, Dedupe(ids)[i]) < FirstAt(ids, Dedupe(ids)[j])
  {
    hide FirstAt;
    DedupeKeepsFirsts(ids);
    if ids != [] {
      var n := |ids| - 1;
      var before := ids[..n];
      DedupeKeepsOrder(before);
      DedupeKeepsFirsts(before);
      assert ids == before + [ids[n]];
      forall id | id in before ensures FirstAt(ids, id) == FirstAt(before, id) {
        FirstIsUnique(ids, id, FirstAt(before, id));
      }
      if ids[n] !in before {
        FirstIsUnique(ids, ids[n], n);
      }
    }
  }

  lemma FirstIsUnique(ids: seq<string>, id: string, p: nat)
    requires p < |ids| && ids[p] == id && forall i :: 0 <= i < p ==> ids[i] != id
    ensures FirstAt(ids, id) == p
  {
  }

  /** The owner to whom a Discord event of an owned room goes alone. */
  function SoleOwner(m: Store, handles: map<string, bool>, event: Event): Option<string>
  {
    if SessionKeys.SourceType(event) != "discord" then None
    else
      var owner := OwnerOf(ByChannel(m, SessionKeys.ChannelId(event)));
      if owner.Some? && Lookup(handles, owner.value) == Some(true) then owner else None
  }

  function Route(m: Store, rules: seq<Routing>, handles: map<string, bool>, event: Event): seq<string>
  {
    var owner := SoleOwner(m, handles, event);
    if owner.Some? then [owner.value] else Dedupe(Accepting(rules, event))
  }

  class Router {
    const store: LifecycleContextStore?
    var routings: seq<Routing>
    var handlesOwnedSpaces: map<string, bool>

    constructor (store: LifecycleContextStore?)
      ensures this.store == store && routings == [] && handlesOwnedSpaces == map[]
    {
      this.store, routings, handlesOwnedSpaces := store, [], map[];
    }

    method AddRouting(rule: Routing)
      modifies this
      ensures routings == old(routings) + [rule] && handlesOwnedSpaces == old(handlesOwnedSpaces)
    {
      routings := routings + [rule];
    }

    method RouteEvent(event: Event) returns (botIds: seq<string>)
      ensures botIds == Route(if store == null then EMPTY else store.Model(), routings, handlesOwnedSpaces, event)
    {
      var accepted := [];
      for i := 0 to |routings|
        invariant accepted == Accepting(routings[..i], event)
      {
        assert routings[..i + 1][..i] == routings[..i];
        if routings[i].accepts(event) {
          accepted := accepted + [routings[i].botId];
        } else {
          assert accepted + [] == accepted;
        }
      }
      assert routings[..|routings|] == routings;
      if store != null && SessionKeys.SourceType(event) == "discord" {
        var context := store.GetByChannelId(SessionKeys.ChannelId(event));
        if context != null && Present(context.configuredBotId)
           && Lookup(handlesOwnedSpaces, context.configuredBotId.value) == Some(true) {
          return [context.configuredBotId.value];
        }
      }
      botIds := Dedupe(accepted);
    }
  }

  // ----- the owner's identity, end to end -----

  /** Where a lifecycle message about a room goes: to its thread if there is one. */
  function MessageTarget(room: string, delivery: Option<string>): string
  {
    if Indexable(delivery) then delivery.value else room
  }

  /** Whose context a delivery target leads to: the room of that very id, else the indexed context. */
  lemma TargetLeadsTo(m: Store, c: Context, target: string)
    requires TargetsSound(m) && ById(m, c.contextId) == Some(c) && !IsBlank(target)
    ensures ByTarget(m, Some(target)) == Some(c)
       <==> || ByChannel(m, Some(target)) == Some(c)
            || (ByChannel(m, Some(target)).None? && Lookup(m.byTarget, target) == Some(c.contextId))
  {
  }

  /** In a room whose context names an owner: a Discord event of the room goes to exactly that owner, provided it
      handles owned spaces; and every message to the room leaves through the owner's sender or gateway or not at all.
      Any store will do. */
  lemma OwnerOfRoom(m: Store, t: Table, rules: seq<Routing>, handles: map<string, bool>, room: string, c: Context,
                    owner: string, event: Event)
    requires ByChannel(m, Some(room)) == Some(c) && OwnerOf(Some(c)) == Some(owner)
    ensures SessionKeys.SourceType(event) == "discord" && SessionKeys.ChannelId(event) == Some(room)
         && Lookup(handles, owner) == Some(true)
        ==> Route(m, rules, handles, event) == [owner]
    ensures SenderFor(t, m, room) == Lookup(t.senders, owner)
    ensures GatewayFor(t, m, Some(room)) == Lookup(t.gateways, owner)
  {
  }

  /** The owner's identity in every reachable store: events of the room go to the owner alone, and a message about the
      room, sent to the room or to its indexed thread, whether the thread exists or its creation left the sentinel,
      leaves through the owner's sender or gateway or not at all. A thread whose id is also another room's channel
      belongs to that room. */
  lemma OwnerIdentity(h: History, t: Table, rules: seq<Routing>, handles: map<string, bool>, room: string, c: Context,
                      owner: string, delivery: Option<string>, event: Event)
    requires ByChannel(Replay(h, |h|), Some(room)) == Some(c) && OwnerOf(Some(c)) == Some(owner)
    requires Indexable(delivery) ==>
      && Lookup(Replay(h, |h|).byTarget, delivery.value) == Some(c.contextId)
      && ByChannel(Replay(h, |h|), delivery) in {None, Some(c)}
    ensures SessionKeys.SourceType(event) == "discord" && SessionKeys.ChannelId(event) == Some(room)
         && Lookup(handles, owner) == Some(true)
        ==> Route(Replay(h, |h|), rules, handles, event) == [owner]
    ensures var m, target := Replay(h, |h|), MessageTarget(room, delivery);
            && SenderFor(t, m, target) == SenderFor(t, m, room) == Lookup(t.senders, owner)
            && GatewayFor(t, m, Some(target)) == GatewayFor(t, m, Some(room)) == Lookup(t.gateways, owner)
  {
    hide Replay, Route, IsBlank;
    var m := Replay(h, |h|);
    TargetsAreSound(h, |h|);
    OwnerOfRoom(m, t, rules, handles, room, c, owner, event);
    if Indexable(delivery) {
      TargetLeadsTo(m, c, delivery.value);
    }
  }

  /** Read off the history: the event is a Discord event of a room whose current context names this owner, and the owner
      handles owned spaces. */
  ghost predicate AloneIn(h: History, handles: map<string, bool>, event: Event, owner: string)
  {
    && owner in handles && handles[owner] && !IsBlank(owner)
    && SessionKeys.FromDiscord(event) && Present(SessionKeys.ChannelId(event))
    && var under := LastUnder(h, |h|, SessionKeys.ChannelId(event).value);
       && under.Some? && Version(h, |h|, under.value).Some?
       && Version(h, |h|, under.value).value.configuredBotId == Some(owner)
  }

  /** The owner alone is served exactly in its own rooms. */
  lemma OwnerAloneExactlyWhen(h: History, rules: seq<Routing>, handles: map<string, bool>, event: Event, owner: string)
    ensures SoleOwner(Replay(h, |h|), handles, event) == Some(owner) <==> AloneIn(h, handles, event, owner)
    ensures AloneIn(h, handles, event, owner) ==> Route(Replay(h, |h|), rules, handles, event) == [owner]
  {
    hide Replay, LastUnder, Version, IsBlank, SessionKeys.ChannelId, SessionKeys.SourceType, SessionKeys.FromDiscord;
    SessionKeys.SourceTypeReads(event);
    var channel := SessionKeys.ChannelId(event);
    if Present(channel) {
      StoreRefinesHistory(h, channel.value);
    } else {
      BlankKeyFindsNothing(Replay(h, |h|), channel);
    }
  }

  /** Everywhere else a bot is served exactly when one of its rules accepts, and once, in the order of the rules. */
  lemma RouteWithoutOwner(h: History, rules: seq<Routing>, handles: map<string, bool>, event: Event)
    requires forall owner :: !AloneIn(h, handles, event, owner)
    ensures var r := Route(Replay(h, |h|), rules, handles, event);
            && (forall id :: id in r
                  <==> exists i :: 0 <= i < |rules| && rules[i].botId == id && rules[i].accepts(event))
            && (forall i, j :: 0 <= i < j < |r| ==> r[i] != r[j])
            && r == Dedupe(Accepting(rules, event))
  {
    hide AloneIn, Replay;
    var sole := SoleOwner(Replay(h, |h|), handles, event);
    if sole.Some? {
      OwnerAloneExactlyWhen(h, rules, handles, event, sole.value);
    }
    DedupeKeepsFirsts(Accepting(rules, event));
    forall id ensures id in Accepting(rules, event)
                 <==> exists i :: 0 <= i < |rules| && rules[i].botId == id && rules[i].accepts(event)
    {
      AcceptingMembers(rules, event, id);
    }
  }

  /** No context was last put under the id, and no current version has it as its target. */
  ghost predicate Unclaimed(h: History, id: string)
  {
    && LastUnder(h, |h|, id).None?
    && forall c :: Version(h, |h|, c).Some? ==> Version(h, |h|, c).value.deliveryChannelId != Some(id)
  }

  /** Places no history has claimed, and null or blank ones, are served by the defaults. */
  lemma DefaultsElsewhere(h: History, t: Table, place: Option<string>)
    requires place.None? || IsBlank(place.value) || Unclaimed(h, place.value)
    ensures GatewayFor(t, Replay(h, |h|), place) == t.defaultGateway
    ensures place.Some? ==> SenderFor(t, Replay(h, |h|), place.value) == t.defaultSender
  {
    hide Replay, LastUnder, Version, IsBlank;
    var m := Replay(h, |h|);
    if Present(place) {
      StoreRefinesHistory(h, place.value);
      TargetsAreSound(h, |h|);
      if place.value in m.byTarget {
        VersionsAreStored(h, |h|, m.byTarget[place.value]);
      }
    } else {
      BlankKeyFindsNothing(m, place);
    }
  }

  /** So are places whose context names no owner. */
  lemma DefaultsWithoutOwner(m: Store, t: Table, place: string)
    requires ByTarget(m, Some(place)).Some? && !Present(ByTarget(m, Some(place)).value.configuredBotId)
    ensures GatewayFor(t, m, Some(place)) == t.defaultGateway && SenderFor(t, m, place) == t.defaultSender
  {
  }

  lemma {:induction false} AcceptingMembers(rules: seq<Routing>, event: Event, id: string)
    ensures id in Accepting(rules, event)
       <==> exists i :: 0 <= i < |rules| && rules[i].botId == id && rules[i].accepts(event)
  {
    if rules != [] {
      var n := |rules| - 1;
      AcceptingMembers(rules[..n], event, id);
      if id in Accepting(rules[..n], event) {
        var i :| 0 <= i < n && rules[..n][i].botId == id && rules[..n][i].accepts(event);
        assert rules[i].botId == id && rules[i].accepts(event);
      }
      forall i | 0 <= i < |rules| && rules[i].botId == id && rules[i].accepts(event)
        ensures id in Accepting(rules, event)
      {
        if i < n {
          assert rules[..n][i] == rules[i];
        }
      }
    }
  }

  /** The monitor addresses its updates to this target: in a thread as a plain message, in the room as a reply to the
      message that started the run. */
  lemma MonitorAddressesTarget(r: RunMonitor.Record, u: RunMonitor.Update, room: string)
    requires r.channelId == Some(room)
    ensures var d := r.deliveryChannelId;
            var inThread := d.Some? && !IsBlank(d.value) && d.value != "THREAD_CREATE_FAILED";
            && RunMonitor.Addressed(r, u).target == (if inThread then d else Some(room))
            && RunMonitor.Addressed(r, u).messageId == (if inThread then None else r.replyToMessageId)
            && RunMonitor.Addressed(r, u).target == Some(MessageTarget(room, d))
    ensures RunMonitor.Addressed(r, u).run == r.agentId && RunMonitor.Addressed(r, u).update == u
  {
  }
}
