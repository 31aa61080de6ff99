/** Discovery from end to end: the cloud connector broadcasts a LIST command, the plugins
    answer, and the connector passes on what it finds. */
module Discovery {
  import opened Options
  import opened Topics
  import opened TopicParsing
  import opened BusModel
  import opened Plugins
  import opened Routing
  import opened Traffic

  /** Plugin `c` is a cloud connector and no other connector carries its plugin name. */
  ghost predicate DiscoverySystem(sys: System, c: nat) {
    && ValidSystem(sys) && SlashFree(sys.conf.prefix)
    && c < |sys.plugins| && sys.plugins[c].handler.Cloud?
    && (forall j :: 0 <= j < |sys.plugins| && j != c && sys.plugins[j].handler.Cloud? ==>
          sys.plugins[j].details.pluginName != sys.plugins[c].details.pluginName)
  }

  function Request(sys: System, c: nat): IBMessage
    requires c < |sys.plugins|
  {
    ListCommand(sys.plugins[c].details)
  }

  /** What is in flight once connector `c` has called `discoverSensors`. */
  function Start(sys: System, c: nat): seq<Delivery>
    requires sys.conf.prefix != "" && c < |sys.plugins|
  {
    FanoutAll(sys, MessagePackets(OnlineClient(sys, c), Request(sys, c), "", Names(sys.plugins)))
  }

  /** The parts from `k` on, one behind the other. */
  function Gather(part: nat -> seq<Delivery>, n: nat, k: nat): seq<Delivery>
    requires k <= n
    decreases n - k
  {
    if k == n then [] else part(k) + Gather(part, n, k + 1)
  }

  /** The request to plugin `k`, which connectors do not get. */
  function RequestFor(sys: System, c: nat): nat -> seq<Delivery>
    requires c < |sys.plugins|
  {
    (k: nat) => if k >= |sys.plugins| || sys.plugins[k].handler.Cloud? then [] else [RequestTo(sys, c, k)]
  }

  /** One request for each device plugin from `k` on. */
  function Requests(sys: System, c: nat, k: nat): seq<Delivery>
    requires c < |sys.plugins| && k <= |sys.plugins|
  {
    Gather(RequestFor(sys, c), |sys.plugins|, k)
  }

  function RequestTo(sys: System, c: nat, k: nat): Delivery
    requires c < |sys.plugins| && k < |sys.plugins|
  {
    Delivery(k, CommandTopic(sys.conf, sys.plugins[k].details.className), Request(sys, c))
  }

  /** The list a plugin answers with, if it answers LIST at all. */
  function ListText(h: Handler): Option<string> {
    match h
    case Fake(slots) => Some(EscapeQuotes(Listing(Present(slots), ", ")))
    case Nest(types) => Some(Listing(Flatten(types), ",\n"))
    case _ => None
  }

  /** What plugin `k` has connector `c` do. */
  function FoundAt(sys: System, c: nat, k: nat): multiset<(nat, Act)>
    requires k < |sys.plugins|
  {
    match ListText(sys.plugins[k].handler)
    case None => multiset{}
    case Some(text) => multiset{(c, Discovered(sys.plugins[k].details.className, text))}
  }

  function Sum<T>(f: nat -> multiset<T>, n: nat, k: nat): multiset<T>
    requires k <= n
    decreases n - k
  {
    if k == n then multiset{} else f(k) + Sum(f, n, k + 1)
  }

  function FoundBy(sys: System, c: nat): nat -> multiset<(nat, Act)> {
    (k: nat) => if k < |sys.plugins| then FoundAt(sys, c, k) else multiset{}
  }

  function Found(sys: System, c: nat, k: nat): multiset<(nat, Act)>
    requires k <= |sys.plugins|
  {
    Sum(FoundBy(sys, c), |sys.plugins|, k)
  }

  // ---------------------------------------------------------- the broadcast

  /** A command for the plugin at `p` matches the filters of plugin `k` only if that is it. */
  lemma CommandAtPlugin(sys: System, p: nat, k: nat)
    requires ValidSystem(sys) && p < |sys.plugins| && k < |sys.plugins|
    ensures MatchCount(Filters(sys, k), CommandTopic(sys.conf, sys.plugins[p].details.className)) ==
            if k == p && !sys.plugins[p].handler.Cloud? then 1 else 0
  {
    var name := sys.plugins[p].details.className;
    assert WellTyped(sys.plugins[k]) && GoodId(sys.conf, name) && GoodId(sys.conf, sys.plugins[k].details.className);
    CommandRouting(sys.conf, name, sys.plugins[k].details);
    LevelsOfSlashFree(name);
    KindsDiffer();
  }

  /** A topic that only plugin `p` has a filter for, seen from plugin `k` on. */
  lemma {:induction false} SpreadToOne(copies: nat -> nat, n: nat, topic: string, msg: IBMessage, p: nat, k: nat)
    requires p < n && k <= n && copies(p) <= 1
    requires forall j :: 0 <= j < n && j != p ==> copies(j) == 0
    ensures Spread(copies, n, topic, msg, k) == if k <= p && copies(p) == 1 then [Delivery(p, topic, msg)] else []
    decreases n - k
  {
    if k < n {
      SpreadToOne(copies, n, topic, msg, p, k + 1);
      RepeatShort(Delivery(k, topic, msg));
    }
  }

  lemma CommandFanout(sys: System, p: nat, msg: IBMessage)
    requires ValidSystem(sys) && p < |sys.plugins|
    ensures var topic := CommandTopic(sys.conf, sys.plugins[p].details.className);
            Fanout(sys, topic, msg, 0) == if sys.plugins[p].handler.Cloud? then [] else [Delivery(p, topic, msg)]
  {
    var topic := CommandTopic(sys.conf, sys.plugins[p].details.className);
    var copies := CopiesOf(sys, topic);
    forall j | 0 <= j < |sys.plugins| ensures copies(j) == if j == p && !sys.plugins[p].handler.Cloud? then 1 else 0 {
      CommandAtPlugin(sys, p, j);
    }
    SpreadToOne(copies, |sys.plugins|, topic, msg, p, 0);
  }

  lemma RequestsStep(sys: System, c: nat, k: nat)
    requires c < |sys.plugins| && k < |sys.plugins|
    ensures Requests(sys, c, k) ==
            if sys.plugins[k].handler.Cloud? then Requests(sys, c, k + 1)
            else [RequestTo(sys, c, k)] + Requests(sys, c, k + 1)
  {
    assert [] + Requests(sys, c, k + 1) == Requests(sys, c, k + 1);
  }

  /** The packets of the broadcast for plugin `k`. */
  function PacketsFor(sys: System, c: nat, k: nat): seq<Packet>
    requires sys.conf.prefix != "" && c < |sys.plugins| && k < |sys.plugins|
  {
    var cfg := AttachedConfig(sys.conf, sys.plugins[c].details);
    var name := sys.plugins[k].details.className;
    if name != cfg.id then BusPackets(cfg, CommandTopic(cfg, name), Request(sys, c)) else []
  }

  ghost predicate ReachesOnlyDevice(sys: System, c: nat, k: nat)
    requires sys.conf.prefix != "" && c < |sys.plugins| && k < |sys.plugins|
  {
    FanoutAll(sys, PacketsFor(sys, c, k)) == if sys.plugins[k].handler.Cloud? then [] else [RequestTo(sys, c, k)]
  }

  lemma PacketsForReach(sys: System, c: nat, k: nat)
    requires DiscoverySystem(sys, c) && k < |sys.plugins|
    ensures ReachesOnlyDevice(sys, c, k)
  {
    var name := sys.plugins[k].details.className;
    assert GoodId(sys.conf, name) && GoodId(sys.conf, sys.plugins[c].details.className);
    AttachedShape(sys.conf, sys.plugins[c].details);
    FanoutOfPublish(sys, AttachedConfig(sys.conf, sys.plugins[c].details), CommandTopic(sys.conf, name),
        Request(sys, c));
    CommandPublishable(sys.conf, name);
    CommandFanout(sys, k, Request(sys, c));
    assert FanoutAll(sys, []) == [];
  }

  function AllPackets(sys: System, c: nat, k: nat): seq<Packet>
    requires sys.conf.prefix != "" && c < |sys.plugins| && k <= |sys.plugins|
    decreases |sys.plugins| - k
  {
    if k == |sys.plugins| then [] else PacketsFor(sys, c, k) + AllPackets(sys, c, k + 1)
  }

  function BroadcastTail(sys: System, c: nat, k: nat): seq<Packet>
    requires sys.conf.prefix != "" && c < |sys.plugins| && k <= |sys.plugins|
  {
    BroadcastPackets(AttachedConfig(sys.conf, sys.plugins[c].details), Request(sys, c), Names(sys.plugins[k..]))
  }

  lemma BroadcastStep(sys: System, c: nat, k: nat)
    requires sys.conf.prefix != "" && c < |sys.plugins| && k < |sys.plugins|
    ensures BroadcastTail(sys, c, k) == PacketsFor(sys, c, k) + BroadcastTail(sys, c, k + 1)
  {
    var rest := sys.plugins[k + 1..];
    assert sys.plugins[k..] == [sys.plugins[k]] + rest;
    NamesCons(sys.plugins[k], rest);
    BroadcastCons(AttachedConfig(sys.conf, sys.plugins[c].details), Request(sys, c),
      sys.plugins[k].details.className, Names(rest));
  }

  lemma {:induction false} BroadcastByIndex(sys: System, c: nat, k: nat)
    requires sys.conf.prefix != "" && c < |sys.plugins| && k <= |sys.plugins|
    ensures BroadcastTail(sys, c, k) == AllPackets(sys, c, k)
    decreases |sys.plugins| - k
  {
    if k < |sys.plugins| {
      BroadcastByIndex(sys, c, k + 1);
      BroadcastStep(sys, c, k);
    }
  }

  lemma NamesCons(p: Plugin, rest: seq<Plugin>)
    ensures Names([p] + rest) == [p.details.className] + Names(rest)
  {
    assert ([p] + rest)[1..] == rest;
  }

  lemma BroadcastCons(cfg: Config, msg: IBMessage, name: string, rest: seq<string>)
    ensures BroadcastPackets(cfg, msg, [name] + rest) ==
            (if name != cfg.id then BusPackets(cfg, CommandTopic(cfg, name), msg) else [])
            + BroadcastPackets(cfg, msg, rest)
  {
    assert ([name] + rest)[1..] == rest;
  }

  lemma {:induction false} BroadcastFrom(sys: System, c: nat, k: nat)
    requires sys.conf.prefix != "" && c < |sys.plugins| && k <= |sys.plugins|
    requires forall j :: 0 <= j < |sys.plugins| ==> ReachesOnlyDevice(sys, c, j)
    ensures FanoutAll(sys, AllPackets(sys, c, k)) == Requests(sys, c, k)
    decreases |sys.plugins| - k
  {
    if k < |sys.plugins| {
      BroadcastFrom(sys, c, k + 1);
      RequestsStep(sys, c, k);
      assert ReachesOnlyDevice(sys, c, k);
      FanoutOfConcat(sys, PacketsFor(sys, c, k), AllPackets(sys, c, k + 1));
    }
  }

  /** The request reaches every device plugin once and nobody else. */
  lemma RequestReachesAll(sys: System, c: nat)
    requires DiscoverySystem(sys, c)
    ensures Start(sys, c) == Requests(sys, c, 0)
  {
    KindsDiffer();
    assert WellTyped(sys.plugins[c]);
    AttachedShape(sys.conf, sys.plugins[c].details);
    assert sys.plugins[0..] == sys.plugins;
    BroadcastByIndex(sys, c, 0);
    forall j | 0 <= j < |sys.plugins| ensures ReachesOnlyDevice(sys, c, j) {
      PacketsForReach(sys, c, j);
    }
    BroadcastFrom(sys, c, 0);
  }

  // ------------------------------------------------------------ the answers

  /** Of the chosen plugins at most plugin `c` acts. */
  lemma {:induction false} FoldOfPick(acts: Delivery -> multiset<(nat, Act)>, chosen: nat -> bool, n: nat,
          topic: string, msg: IBMessage, c: nat, k: nat)
    requires k <= n && c < n && chosen(c)
    requires forall j :: 0 <= j < n && chosen(j) && j != c ==> acts(Delivery(j, topic, msg)) == multiset{}
    ensures FoldActs(acts, Pick(chosen, n, topic, msg, k)) ==
            if k <= c then acts(Delivery(c, topic, msg)) else multiset{}
    decreases n - k
  {
    if k < n {
      FoldOfPick(acts, chosen, n, topic, msg, c, k + 1);
      var rest := Pick(chosen, n, topic, msg, k + 1);
      if chosen(k) {
        assert ([Delivery(k, topic, msg)] + rest)[1..] == rest;
      } else {
        assert [] + rest == rest;
      }
    }
  }

  /** An answer that refers to connector `c` makes that connector act, and no other. */
  lemma ActsOnReply(sys: System, c: nat, topic: string, who: string, reply: IBMessage)
    requires DiscoverySystem(sys, c) && PluginOf(topic) == who
    requires reply.payload.ptype == "event" && reply.payload.value == "SUCCESS" && reply.payload.cvalue == "LIST"
    requires reply.reference == sys.plugins[c].details.pluginName
    ensures DirectActs(sys, CloudsFrom(sys, topic, reply, 0)) == multiset{(c, Discovered(who, reply.payload.content))}
  {
    var acts := ActsAt(sys);
    forall j | 0 <= j < |sys.plugins| && sys.plugins[j].handler.Cloud?
      ensures acts(Delivery(j, topic, reply)) ==
              if j == c then multiset{(c, Discovered(who, reply.payload.content))} else multiset{}
    {
      ReplyAtCloud(sys, c, Delivery(j, topic, reply), who);
    }
    FoldOfPick(acts, IsCloud(sys), |sys.plugins|, topic, reply, c, 0);
  }

  lemma ReplyAtCloud(sys: System, c: nat, d: Delivery, who: string)
    requires DiscoverySystem(sys, c) && d.to < |sys.plugins| && PluginOf(d.topic) == who
    requires sys.plugins[d.to].handler.Cloud?
    requires d.msg.payload.ptype == "event" && d.msg.payload.value == "SUCCESS" && d.msg.payload.cvalue == "LIST"
    requires d.msg.reference == sys.plugins[c].details.pluginName
    ensures DeliveryActs(sys, d) == if d.to == c then multiset{(c, Discovered(who,
        d.msg.payload.content))} else multiset{}
  {
    TaggedOne(c, Discovered(who, d.msg.payload.content));
  }

  lemma TaggedOne(c: nat, act: Act)
    ensures Tagged(c, [act]) == multiset{(c, act)}
  {
    assert [act][1..] == [];
  }

  lemma {:induction false} FoldOfSilence(acts: Delivery -> multiset<(nat, Act)>, ds: seq<Delivery>)
    requires forall d <- ds :: acts(d) == multiset{}
    ensures FoldActs(acts, ds) == multiset{}
  {
    if ds != [] {
      assert ds[0] in ds;
      FoldOfSilence(acts, ds[1..]);
    }
  }

  /** An event that is neither a list nor properties makes nobody act. */
  lemma NoActs(sys: System, topic: string, reply: IBMessage)
    requires reply.payload.cvalue != "LIST" && reply.payload.cvalue != "PROPERTIES"
    ensures DirectActs(sys, CloudsFrom(sys, topic, reply, 0)) == multiset{}
  {
    var ds, acts := CloudsFrom(sys, topic, reply, 0), ActsAt(sys);
    PickDelivers(IsCloud(sys), |sys.plugins|, topic, reply, 0);
    forall d <- ds ensures acts(d) == multiset{} {
      if d.to < |sys.plugins| {
        NoActAt(sys, d);
      }
    }
    FoldOfSilence(acts, ds);
  }

  lemma {:induction false} PickDelivers(chosen: nat -> bool, n: nat, topic: string, msg: IBMessage, k: nat)
    requires k <= n
    ensures forall d <- Pick(chosen, n, topic, msg, k) :: d.msg == msg
    decreases n - k
  {
    if k < n {
      PickDelivers(chosen, n, topic, msg, k + 1);
    }
  }

  lemma NoActAt(sys: System, d: Delivery)
    requires d.to < |sys.plugins| && d.msg.payload.cvalue != "LIST" && d.msg.payload.cvalue != "PROPERTIES"
    ensures DeliveryActs(sys, d) == multiset{}
  {
  }

  function AnswerTopic(sys: System, p: nat): string
    requires sys.conf.prefix != "" && p < |sys.plugins|
  {
    EventTopic(AttachedConfig(sys.conf, sys.plugins[p].details), "")
  }

  lemma AnswerTopicNamesPlugin(sys: System, p: nat)
    requires ValidSystem(sys) && SlashFree(sys.conf.prefix) && p < |sys.plugins|
    ensures PluginOf(AnswerTopic(sys, p)) == sys.plugins[p].details.className
    ensures PublishableTopic(AnswerTopic(sys, p))
  {
    var d := sys.plugins[p].details;
    assert GoodId(sys.conf, d.className);
    AttachedShape(sys.conf, d);
    EventTopicLevels(AttachedConfig(sys.conf, d), "");
    LevelsOfSlashFree(sys.conf.prefix);
    PluginOfMeaning(AnswerTopic(sys, p));
  }

  lemma AnswerFanout(sys: System, p: nat, msg: IBMessage)
    requires ValidSystem(sys) && SlashFree(sys.conf.prefix) && p < |sys.plugins|
    ensures FanoutAll(sys, BusPackets(AttachedConfig(sys.conf, sys.plugins[p].details), AnswerTopic(sys, p), msg)) ==
            CloudsFrom(sys, AnswerTopic(sys, p), msg, 0)
  {
    AnswerTopicNamesPlugin(sys, p);
    FanoutOfPublish(sys, AttachedConfig(sys.conf, sys.plugins[p].details), AnswerTopic(sys, p), msg);
    EventFanout(sys, p, "", msg, 0);
    LevelsOfSlashFree("");
  }

  /** A plugin's single answer without a sender goes to every connector. */
  lemma OneAnswer(sys: System, p: nat, d: Delivery, o: Outgoing)
    requires ValidSystem(sys) && SlashFree(sys.conf.prefix) && p < |sys.plugins| && d.to == p
    requires !sys.plugins[p].handler.Cloud?
    requires Replies(sys.plugins[p], d.topic, d.msg) == [o]
    requires o.msg.payload.ptype == "event" && o.target == ""
    ensures Caused(sys, d) == CloudsFrom(sys, AnswerTopic(sys, p), o.msg, 0)
  {
    OutPacketsOfOne(OnlineClient(sys, p), o, Names(sys.plugins));
    EventPacketsOfDevice(sys, p, o);
    AnswerFanout(sys, p, o.msg);
  }

  lemma BulbTopic(conf: Config, id: string)
    requires SlashFree(conf.prefix) && SlashFree(id) && SlashFree(conf.commandTopic)
    ensures |Tokens(CommandTopic(conf, id))| == 3
  {
    CommandTopicLevels(conf, id);
    LevelsOfSlashFree(conf.prefix);
    LevelsOfSlashFree(id);
  }

  lemma ListKinds()
    ensures "GET" != "SET" && "TESTMSG" != "LIST" && "TESTMSG" != "PROPERTIES"
  {
    assert "GET"[0] != "SET"[0] && "TESTMSG"[0] != "LIST"[0] && "TESTMSG"[0] != "PROPERTIES"[0];
  }

  /** What the request to plugin `k` comes to. */
  lemma RequestYields(sys: System, c: nat, k: nat)
    requires DiscoverySystem(sys, c) && k < |sys.plugins| && !sys.plugins[k].handler.Cloud?
    ensures var d := RequestTo(sys, c, k);
            DeliveryActs(sys, d) + DirectActs(sys, Caused(sys, d)) == FoundAt(sys, c, k)
  {
    var p := sys.plugins[k];
    var d := RequestTo(sys, c, k);
    assert GoodId(sys.conf, p.details.className);
    AnswerTopicNamesPlugin(sys, k);
    match p.handler {
      case Fake(slots) =>
        var o := FakeReplies(p.details, slots, d.topic, d.msg)[0];
        OneAnswer(sys, k, d, o);
        ActsOnReply(sys, c, AnswerTopic(sys, k), p.details.className, o.msg);
      case Nest(types) =>
        var o := NestReplies(p.details, types, d.topic, d.msg)[0];
        OneAnswer(sys, k, d, o);
        ActsOnReply(sys, c, AnswerTopic(sys, k), p.details.className, o.msg);
      case Lifx =>
        BulbTopic(sys.conf, p.details.className);
        ListKinds();
        var o := LifxReplies(p.details, d.topic, d.msg)[0];
        OneAnswer(sys, k, d, o);
        NoActs(sys, AnswerTopic(sys, k), o.msg);
      case Networking =>
        assert Caused(sys, d) == [];
    }
  }

  /** What the requests to plugin `k`, one or none, come to. */
  lemma RequestForYields(sys: System, c: nat, k: nat)
    requires DiscoverySystem(sys, c) && k < |sys.plugins|
    ensures FoldActs(PendingAt(sys), RequestFor(sys, c)(k)) == FoundAt(sys, c, k)
  {
    if !sys.plugins[k].handler.Cloud? {
      RequestYields(sys, c, k);
      assert [RequestTo(sys, c, k)][1..] == [];
    }
  }

  lemma {:induction false} FoldOfGather(acts: Delivery -> multiset<(nat, Act)>, part: nat -> seq<Delivery>,
          found: nat -> multiset<(nat, Act)>, n: nat, k: nat)
    requires k <= n
    requires forall j :: 0 <= j < n ==> FoldActs(acts, part(j)) == found(j)
    ensures FoldActs(acts, Gather(part, n, k)) == Sum(found, n, k)
    decreases n - k
  {
    if k < n {
      FoldOfGather(acts, part, found, n, k + 1);
      FoldsOfConcat(d => 0, acts, part(k), Gather(part, n, k + 1));
    }
  }

  lemma {:induction false} GatherInRange(sys: System, part: nat -> seq<Delivery>, k: nat)
    requires k <= |sys.plugins|
    requires forall j :: 0 <= j < |sys.plugins| ==> InRange(sys, part(j))
    ensures InRange(sys, Gather(part, |sys.plugins|, k))
    decreases |sys.plugins| - k
  {
    if k < |sys.plugins| {
      GatherInRange(sys, part, k + 1);
    }
  }

  lemma RequestsYield(sys: System, c: nat)
    requires DiscoverySystem(sys, c)
    ensures InRange(sys, Requests(sys, c, 0))
    ensures Pending(sys, Requests(sys, c, 0)) == Found(sys, c, 0)
  {
    var acts, part, found := PendingAt(sys), RequestFor(sys, c), FoundBy(sys, c);
    GatherInRange(sys, part, 0);
    forall j | 0 <= j < |sys.plugins| ensures FoldActs(acts, part(j)) == found(j) {
      RequestForYields(sys, c, j);
    }
    FoldOfGather(acts, part, found, |sys.plugins|, 0);
  }

  /** Discovery from end to end. Whatever order the messages are handled in, once the bus is
      quiet connector `c` has passed on the list of every plugin that keeps one, under that
      plugin's name and exactly once; no other connector has done anything. */
  lemma DiscoveryIsComplete(sys: System, c: nat, schedule: seq<nat>, after: State)
    requires DiscoverySystem(sys, c)
    requires Reaches(sys, State(Start(sys, c), multiset{}), schedule, after)
    requires after.inflight == []
    ensures after.acts == Found(sys, c, 0)
  {
    RequestReachesAll(sys, c);
    RequestsYield(sys, c);
    BurstIsDetermined(sys, State(Start(sys, c), multiset{}), schedule, after);
  }

  /** Plugin `p` keeps a list, and `act` passes it on under the plugin's name. */
  predicate PassesOn(sys: System, p: nat, act: Act)
    requires p < |sys.plugins|
  {
    var text := ListText(sys.plugins[p].handler);
    text.Some? && act == Discovered(sys.plugins[p].details.className, text.value)
  }

  lemma FoundAtMeaning(sys: System, c: nat, k: nat, who: nat, act: Act)
    requires k < |sys.plugins|
    ensures FoundAt(sys, c, k)[(who, act)] == if who == c && PassesOn(sys, k, act) then 1 else 0
  {
  }

  lemma PassedOnOnce(sys: System, p: nat, q: nat, act: Act)
    requires ValidSystem(sys) && p < |sys.plugins| && q < |sys.plugins|
    requires PassesOn(sys, p, act) && PassesOn(sys, q, act)
    ensures p == q
  {
  }

  /** A sum in which at most one part has `x`, and that once. */
  lemma {:induction false} SumOfOne<T>(f: nat -> multiset<T>, n: nat, k: nat, x: T)
    requires k <= n
    requires forall p :: k <= p < n ==> f(p)[x] <= 1
    requires forall p, q :: k <= p < q < n ==> f(p)[x] == 0 || f(q)[x] == 0
    ensures Sum(f, n, k)[x] == if exists p :: k <= p < n && f(p)[x] == 1 then 1 else 0
    decreases n - k
  {
    if k < n {
      SumOfOne(f, n, k + 1, x);
      if f(k)[x] == 1 {
        assert forall q :: k < q < n ==> f(q)[x] == 0;
      }
    }
  }

  /** What `Found` counts: one act for each plugin that keeps a list, and nothing else. */
  lemma FoundMeaning(sys: System, c: nat, who: nat, act: Act)
    requires ValidSystem(sys)
    ensures Found(sys, c, 0)[(who, act)] ==
            if who == c && (exists p :: 0 <= p < |sys.plugins| && PassesOn(sys, p, act)) then 1 else 0
  {
    var f, x := FoundBy(sys, c), (who, act);
    forall p | 0 <= p < |sys.plugins| ensures f(p)[x] == if who == c && PassesOn(sys, p, act) then 1 else 0 {
      FoundAtMeaning(sys, c, p, who, act);
    }
    forall p, q | 0 <= p < q < |sys.plugins| ensures f(p)[x] == 0 || f(q)[x] == 0 {
      if PassesOn(sys, p, act) && PassesOn(sys, q, act) {
        PassedOnOnce(sys, p, q, act);
      }
    }
    SumOfOne(f, |sys.plugins|, 0, x);
    if who == c && exists p :: 0 <= p < |sys.plugins| && PassesOn(sys, p, act) {
      var p :| 0 <= p < |sys.plugins| && PassesOn(sys, p, act);
      assert f(p)[x] == 1;
    }
  }
}
