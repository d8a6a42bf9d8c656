/** Session keys: which stored conversation an event belongs to, and why keys of different conversations differ. */
module SessionKeys {
  import opened Text
  import opened WorkflowModel

  // ----- the normalized view of an event -----

  function FirstText(event: Event, a: string, b: string): Option<string>
  {
    if event.TextAt(a).Some? then event.TextAt(a) else event.TextAt(b)
  }

  function ChannelId(event: Event): Option<string> { FirstText(event, "channelId", "channel") }

  function ThreadId(event: Event): Option<string> { FirstText(event, "threadId", "thread") }

  function ActorId(event: Event): Option<string> { FirstText(event, "authorId", "user") }

  /** The part of the text before its first colon, or all of it. */
  function BeforeColon(s: string): string
  {
    if s == "" || s[0] == ':' then "" else [s[0]] + BeforeColon(s[1..])
  }

  function SourceType(event: Event): string { BeforeColon(event.sourceId) }

  // ----- strategies -----

  datatype Strategy = ChannelOnly | ThreadAware | ChannelUser

  function ResolveStrategy(configured: Option<string>, event: Event): Strategy
  {
    var name := if Present(configured) then AsciiLower(configured.value)
                else if SourceType(event) == "discord" then "channel_user" else "channel";
    if name == "channel" then ChannelOnly else if name == "thread" then ThreadAware else ChannelUser
  }

  function ChannelOnlyKey(botId: string, event: Event): string
  {
    var channel := ChannelId(event);
    if Present(channel) then "bot:" + botId + ":conv:" + channel.value else "bot:" + botId + ":state"
  }

  function ChannelUserKey(botId: string, event: Event): string
  {
    var channel, actor := ChannelId(event), ActorId(event);
    if Present(channel) && Present(actor) then "bot:" + botId + ":conv:" + channel.value + ":" + actor.value
    else ChannelOnlyKey(botId, event)
  }

  function ThreadAwareKey(botId: string, event: Event): string
  {
    var thread := ThreadId(event);
    if Present(thread) then "bot:" + botId + ":conv:" + thread.value else ChannelUserKey(botId, event)
  }

  function SessionKey(configured: Option<string>, botId: string, event: Event): string
  {
    match ResolveStrategy(configured, event)
    case ChannelOnly => ChannelOnlyKey(botId, event)
    case ThreadAware => ThreadAwareKey(botId, event)
    case ChannelUser => ChannelUserKey(botId, event)
  }

  // ----- injectivity of the channel_user strategy -----

  predicate ColonFree(s: string)
  {
    forall i :: 0 <= i < |s| ==> s[i] != ':'
  }

  predicate ColonFreeIds(botId: string, event: Event)
  {
    && ColonFree(botId)
    && (ChannelId(event).Some? ==> ColonFree(ChannelId(event).value))
  }

  /** Who is talking where: an actor counts only together with a channel, and blank ids do not count. */
  datatype Conversation = Conversation(bot: string, channel: Option<string>, actor: Option<string>)

  function ConversationOf(botId: string, event: Event): Conversation
  {
    var channel := if Present(ChannelId(event)) then ChannelId(event) else None;
    Conversation(botId, channel, if channel.Some? && Present(ActorId(event)) then ActorId(event) else None)
  }

  lemma SplitAtColon(a: string, b: string, x: string, y: string)
    requires ColonFree(a) && ColonFree(b)
    requires a + ":" + x == b + ":" + y
    ensures a == b && x == y
  {
    var left, right := a + ":" + x, b + ":" + y;
    assert left[|a|] == ':' && right[|b|] == ':';
    assert forall i :: 0 <= i < |a| ==> left[i] == a[i] != ':';
    assert forall i :: 0 <= i < |b| ==> right[i] == b[i] != ':';
    assert |a| == |b|;
    assert a == left[..|a|] == right[..|b|] == b;
    assert x == left[|a| + 1..] == right[|b| + 1..] == y;
  }

  function Tail(c: Conversation): string
  {
    if c.channel.None? then "state"
    else "conv:" + c.channel.value + if c.actor.Some? then ":" + c.actor.value else ""
  }

  lemma KeySpellsConversation(botId: string, event: Event)
    ensures ChannelUserKey(botId, event) == "bot" + ":" + (botId + ":" + Tail(ConversationOf(botId, event)))
  {
  }

  lemma TailInjective(c: Conversation, d: Conversation)
    requires c.channel.Some? ==> ColonFree(c.channel.value)
    requires d.channel.Some? ==> ColonFree(d.channel.value)
    requires c.channel.None? ==> c.actor.None?
    requires d.channel.None? ==> d.actor.None?
    requires Tail(c) == Tail(d)
    ensures c.channel == d.channel && c.actor == d.actor
  {
    assert Tail(c)[0] == if c.channel.None? then 's' else 'c';
    assert Tail(d)[0] == if d.channel.None? then 's' else 'c';
    if c.channel.Some? {
      var u := c.channel.value + if c.actor.Some? then ":" + c.actor.value else "";
      var v := d.channel.value + if d.actor.Some? then ":" + d.actor.value else "";
      assert u == Tail(c)[5..] == Tail(d)[5..] == v;
      assert ColonFree(u) == c.actor.None? by {
        if c.actor.Some? { assert u[|c.channel.value|] == ':'; }
      }
      assert ColonFree(v) == d.actor.None? by {
        if d.actor.Some? { assert v[|d.channel.value|] == ':'; }
      }
      if c.actor.Some? {
        assert u == c.channel.value + ":" + c.actor.value;
        assert v == d.channel.value + ":" + d.actor.value;
        SplitAtColon(c.channel.value, d.channel.value, c.actor.value, d.actor.value);
      } else {
        assert u == c.channel.value && v == d.channel.value;
      }
    }
  }

  /** Two channel_user keys are equal exactly when bot, channel and effective actor agree, whatever the actor's id. */
  lemma ChannelUserKeyInjective(bot1: string, event1: Event, bot2: string, event2: Event)
    requires ColonFreeIds(bot1, event1) && ColonFreeIds(bot2, event2)
    ensures ChannelUserKey(bot1, event1) == ChannelUserKey(bot2, event2)
       <==> ConversationOf(bot1, event1) == ConversationOf(bot2, event2)
  {
    var c, d := ConversationOf(bot1, event1), ConversationOf(bot2, event2);
    KeySpellsConversation(bot1, event1);
    KeySpellsConversation(bot2, event2);
    if ChannelUserKey(bot1, event1) == ChannelUserKey(bot2, event2) {
      SplitAtColon("bot", "bot", bot1 + ":" + Tail(c), bot2 + ":" + Tail(d));
      SplitAtColon(bot1, bot2, Tail(c), Tail(d));
      TailInjective(c, d);
    }
  }

  /** Colon-free channel ids are needed: a channel id containing a colon collides with a channel and an actor. */
  lemma KeysCollideWithColons()
    ensures var e1 := Event("discord:g", "message", map["channelId" := PText("c:u")]);
            var e2 := Event("discord:g", "message", map["channelId" := PText("c"), "authorId" := PText("u")]);
            && ConversationOf("luna", e1) != ConversationOf("luna", e2)
            && ChannelUserKey("luna", e1) == ChannelUserKey("luna", e2)
  {
    var e1 := Event("discord:g", "message", map["channelId" := PText("c:u")]);
    var e2 := Event("discord:g", "message", map["channelId" := PText("c"), "authorId" := PText("u")]);
    assert !IsBlank("c:u") by { assert !IsWhite("c:u"[0]); }
    assert !IsBlank("c") by { assert !IsWhite("c"[0]); }
    assert !IsBlank("u") by { assert !IsWhite("u"[0]); }
    assert ChannelId(e1) == Some("c:u") && ActorId(e1) == None;
    assert ChannelId(e2) == Some("c") && ActorId(e2) == Some("u");
    KeySpellsConversation("luna", e1);
    KeySpellsConversation("luna", e2);
    assert Tail(ConversationOf("luna", e1)) == "conv:c:u" == Tail(ConversationOf("luna", e2));
  }

  // ----- what the configured and the default strategies tell apart -----

  predicate NoStrategy(configured: Option<string>)
  {
    configured.None? || IsBlank(configured.value)
  }

  predicate Named(configured: Option<string>, name: string)
  {
    !NoStrategy(configured) && AsciiLower(configured.value) == name
  }

  predicate FromDiscord(event: Event)
  {
    event.sourceId == "discord" || "discord:" <= event.sourceId
  }

  lemma {:induction false} BeforeColonShape(s: string)
    ensures var t := BeforeColon(s);
            ColonFree(t) && (t == s || (|t| < |s| && t == s[..|t|] && s[|t|] == ':'))
  {
    if s != "" && s[0] != ':' {
      BeforeColonShape(s[1..]);
      var t := BeforeColon(s[1..]);
      assert BeforeColon(s) == [s[0]] + t;
      if t != s[1..] {
        assert s[..|t| + 1] == [s[0]] + s[1..][..|t|];
      }
    }
  }

  lemma SourceTypeReads(event: Event)
    ensures SourceType(event) == "discord" <==> FromDiscord(event)
  {
    var s, t := event.sourceId, SourceType(event);
    BeforeColonShape(s);
    if "discord:" <= s {
      assert s[7] == ':' && forall i :: 0 <= i < 7 ==> s[i] == "discord:"[i] != ':';
      assert |t| == 7 && t == s[..7] == "discord";
    }
  }

  /** Users of one room are told apart: by default on Discord, and under every configured name but the other two. */
  predicate ByUser(configured: Option<string>, event: Event)
  {
    if NoStrategy(configured) then FromDiscord(event) else !Named(configured, "channel") && !Named(configured, "thread")
  }

  lemma StrategyReads(configured: Option<string>, event: Event)
    ensures ByUser(configured, event) ==> ResolveStrategy(configured, event) == ChannelUser
    ensures Named(configured, "thread") ==> ResolveStrategy(configured, event) == ThreadAware
    ensures Named(configured, "channel") || (NoStrategy(configured) && !FromDiscord(event))
        ==> ResolveStrategy(configured, event) == ChannelOnly
  {
    SourceTypeReads(event);
    assert |"channel"| == 7 && |"channel_user"| == 12 && |"thread"| == 6;
  }

  /** Where users are told apart, two session keys are equal exactly when bot, channel and effective actor agree. */
  lemma UserKeysInjective(strategy1: Option<string>, bot1: string, event1: Event,
                          strategy2: Option<string>, bot2: string, event2: Event)
    requires ByUser(strategy1, event1) && ByUser(strategy2, event2)
    requires ColonFreeIds(bot1, event1) && ColonFreeIds(bot2, event2)
    ensures SessionKey(strategy1, bot1, event1) == SessionKey(strategy2, bot2, event2)
       <==> ConversationOf(bot1, event1) == ConversationOf(bot2, event2)
  {
    StrategyReads(strategy1, event1);
    StrategyReads(strategy2, event2);
    ChannelUserKeyInjective(bot1, event1, bot2, event2);
  }

  function RoomOf(event: Event): Option<string>
  {
    if Present(ChannelId(event)) then ChannelId(event) else None
  }

  /** One session for a whole room: by default outside Discord, and under the name "channel". */
  predicate ByRoom(configured: Option<string>, event: Event)
  {
    if NoStrategy(configured) then !FromDiscord(event) else Named(configured, "channel")
  }

  lemma RoomKeysInjective(strategy1: Option<string>, bot1: string, event1: Event,
                          strategy2: Option<string>, bot2: string, event2: Event)
    requires ByRoom(strategy1, event1) && ByRoom(strategy2, event2) && ColonFree(bot1) && ColonFree(bot2)
    ensures SessionKey(strategy1, bot1, event1) == SessionKey(strategy2, bot2, event2)
       <==> bot1 == bot2 && RoomOf(event1) == RoomOf(event2)
  {
    hide IsBlank;
    StrategyReads(strategy1, event1);
    StrategyReads(strategy2, event2);
    var c, d := Conversation(bot1, RoomOf(event1), None), Conversation(bot2, RoomOf(event2), None);
    RoomKeySpelled(bot1, event1);
    RoomKeySpelled(bot2, event2);
    if ChannelOnlyKey(bot1, event1) == ChannelOnlyKey(bot2, event2) {
      SplitAtColon("bot", "bot", bot1 + ":" + Tail(c), bot2 + ":" + Tail(d));
      SplitAtColon(bot1, bot2, Tail(c), Tail(d));
      RoomTails(c, d);
    }
  }

  lemma RoomKeySpelled(botId: string, event: Event)
    ensures ChannelOnlyKey(botId, event) == "bot" + ":" + (botId + ":" + Tail(Conversation(botId, RoomOf(event), None)))
  {
  }

  lemma RoomTails(c: Conversation, d: Conversation)
    requires c.actor == None == d.actor && Tail(c) == Tail(d)
    ensures c.channel == d.channel
  {
    assert Tail(c)[0] == if c.channel.None? then 's' else 'c';
    assert Tail(d)[0] == if d.channel.None? then 's' else 'c';
    if c.channel.Some? {
      assert c.channel.value == Tail(c)[5..] == Tail(d)[5..] == d.channel.value;
    }
  }

  /** Under the name "thread" a present thread stands for the whole conversation. */
  function ThreadOf(botId: string, event: Event): Conversation
  {
    if Present(ThreadId(event)) then Conversation(botId, ThreadId(event), None) else ConversationOf(botId, event)
  }

  lemma ThreadKeysInjective(strategy1: Option<string>, bot1: string, event1: Event,
                            strategy2: Option<string>, bot2: string, event2: Event)
    requires Named(strategy1, "thread") && Named(strategy2, "thread")
    requires ColonFreeIds(bot1, event1) && ColonFreeIds(bot2, event2)
    requires ThreadId(event1).Some? ==> ColonFree(ThreadId(event1).value)
    requires ThreadId(event2).Some? ==> ColonFree(ThreadId(event2).value)
    ensures SessionKey(strategy1, bot1, event1) == SessionKey(strategy2, bot2, event2)
       <==> ThreadOf(bot1, event1) == ThreadOf(bot2, event2)
  {
    hide IsBlank;
    StrategyReads(strategy1, event1);
    StrategyReads(strategy2, event2);
    ThreadKeySpelled(bot1, event1);
    ThreadKeySpelled(bot2, event2);
    var c, d := ThreadOf(bot1, event1), ThreadOf(bot2, event2);
    if ThreadAwareKey(bot1, event1) == ThreadAwareKey(bot2, event2) {
      SplitAtColon("bot", "bot", bot1 + ":" + Tail(c), bot2 + ":" + Tail(d));
      SplitAtColon(bot1, bot2, Tail(c), Tail(d));
      TailInjective(c, d);
    }
  }

  lemma ThreadKeySpelled(botId: string, event: Event)
    ensures ThreadAwareKey(botId, event) == "bot" + ":" + (botId + ":" + Tail(ThreadOf(botId, event)))
  {
    KeySpellsConversation(botId, event);
  }

  /** The ids of an event: each is read under its own name first, then under its short one. */
  lemma EventIds(event: Event)
    ensures ReadsFirst(ChannelId(event), event, "channelId", "channel")
    ensures ReadsFirst(ThreadId(event), event, "threadId", "thread")
    ensures ReadsFirst(ActorId(event), event, "authorId", "user")
  {
  }

  predicate ReadsFirst(id: Option<string>, event: Event, first: string, second: string)
  {
    && (event.TextAt(first).Some? ==> id == event.TextAt(first))
    && (event.TextAt(first).None? ==> id == event.TextAt(second))
  }

  /** The stored keys in full: an unconfigured bot on Discord keeps one session for each user of a channel, elsewhere
      one for each channel. */
  lemma DefaultKeysSpelled(configured: Option<string>, botId: string, event: Event, channel: string, actor: string)
    requires NoStrategy(configured) && !IsBlank(channel) && !IsBlank(actor)
    requires event.TextAt("channelId") == Some(channel) && event.TextAt("authorId") == Some(actor)
    ensures FromDiscord(event) ==>
      SessionKey(configured, botId, event) == "bot:" + botId + ":conv:" + channel + ":" + actor
    ensures !FromDiscord(event) ==> SessionKey(configured, botId, event) == "bot:" + botId + ":conv:" + channel
  {
    hide IsBlank;
    StrategyReads(configured, event);
  }

  // ----- keys the actions write -----

  /** The key of a run record. */
  function RunKey(agentId: string): string
  {
    "cursor:run:" + agentId
  }

  function WriteKey(w: Write): string
  {
    match w
    case RunRecord(agentId) => RunKey(agentId)
    case SessionRun(sessionKey, _) => "cursor:session:" + sessionKey + ":lastRun"
    case LastRepo(authorId, _) => "luna:lastRepo:" + authorId
    case BotInstance(instanceId) => "bot_instance:" + instanceId
  }

  /** The keys in full. */
  lemma WriteKeysSpelled(id: string, other: string)
    ensures WriteKey(RunRecord(id)) == "cursor:run:" + id && WriteKey(BotInstance(id)) == "bot_instance:" + id
    ensures WriteKey(SessionRun(id, other)) == "cursor:session:" + id + ":lastRun"
    ensures WriteKey(LastRepo(id, other)) == "luna:lastRepo:" + id
  {
  }

  /** No action ever writes under a session key, whatever ids are involved. */
  lemma WritesMissSessions(w: Write, configured: Option<string>, botId: string, event: Event)
    ensures WriteKey(w) != SessionKey(configured, botId, event)
  {
    var key := SessionKey(configured, botId, event);
    assert key[0] == 'b' && key[3] == ':';
    assert WriteKey(w)[0] != 'b' || WriteKey(w)[3] == '_';
  }
}
