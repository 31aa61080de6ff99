/** Bursts of bus traffic: messages in flight to attached plugins, delivered one at a time in
    any order, each delivery setting off the answers of the plugin it reaches.

    Every plugin here is attached and connected. The client list names them in the order of
    `plugins`. */
module Traffic {
  import opened Options
  import opened Topics
  import opened TopicParsing
  import opened BusModel
  import opened Plugins
  import opened Routing

  datatype Handler =
    | Fake(slots: seq<Option<Device>>)
    | Nest(types: seq<seq<Device>>)
    | Lifx
    | Networking
    | Cloud

  datatype Plugin = Plugin(details: PluginDetails, handler: Handler)
  datatype System = System(conf: Config, plugins: seq<Plugin>)

  datatype Delivery = Delivery(to: nat, topic: string, msg: IBMessage)
  datatype State = State(inflight: seq<Delivery>, acts: multiset<(nat, Act)>)

  /** Only the cloud connector is a comm plugin, the others are device plugins. */
  ghost predicate WellTyped(p: Plugin) {
    if p.handler.Cloud? then IsComm(p.details) else IsDevice(p.details)
  }

  /** Commands and events may have the same name here. */
  ghost predicate NamedSystem(sys: System) {
    && GoodNames(sys.conf)
    && (forall p <- sys.plugins :: WellTyped(p) && GoodId(sys.conf, p.details.className))
    && (forall i, j :: 0 <= i < j < |sys.plugins| ==>
          sys.plugins[i].details.className != sys.plugins[j].details.className)
  }

  ghost predicate ValidSystem(sys: System) {
    NamedSystem(sys) && GoodConf(sys.conf)
  }

  ghost predicate NoBulbs(sys: System) {
    forall p <- sys.plugins :: !p.handler.Lifx?
  }

  /** The systems whose bursts come to an end. */
  ghost predicate QuietSystem(sys: System) {
    NamedSystem(sys) && (GoodConf(sys.conf) || NoBulbs(sys))
  }

  function Names(plugins: seq<Plugin>): seq<string> {
    if plugins == [] then [] else [plugins[0].details.className] + Names(plugins[1..])
  }

  function Filters(sys: System, k: nat): seq<string>
    requires sys.conf.prefix != "" && k < |sys.plugins|
  {
    AttachedConfig(sys.conf, sys.plugins[k].details).subTopicList
  }

  /** The attached client of plugin `k`, connected and with nothing written yet. */
  function OnlineClient(sys: System, k: nat): Client
    requires sys.conf.prefix != "" && k < |sys.plugins|
  {
    var c := AttachedClient(sys.conf, sys.plugins[k].details);
    c.(handle := Some(WillFor(c.cfg)), up := true)
  }

  function Replies(p: Plugin, topic: string, msg: IBMessage): seq<Outgoing> {
    match p.handler
    case Fake(slots) => FakeReplies(p.details, slots, topic, msg)
    case Nest(types) => NestReplies(p.details, types, topic, msg)
    case Lifx => LifxReplies(p.details, topic, msg)
    case Networking => []
    case Cloud => []
  }

  function ActsOf(p: Plugin, topic: string, msg: IBMessage): seq<Act> {
    if p.handler.Cloud? then CloudActs(p.details, topic, msg) else []
  }

  // ---------------------------------------------------------------- delivery

  function Repeat(d: Delivery, n: nat): seq<Delivery> {
    if n == 0 then [] else [d] + Repeat(d, n - 1)
  }

  /** So many copies for each plugin from `k` on. */
  function Spread(copies: nat -> nat, n: nat, topic: string, msg: IBMessage, k: nat): seq<Delivery>
    requires k <= n
    decreases n - k
  {
    if k == n then [] else Repeat(Delivery(k, topic, msg), copies(k)) + Spread(copies, n, topic, msg, k + 1)
  }

  /** A plugin gets a copy for each of its filters that match. */
  function CopiesOf(sys: System, topic: string): nat -> nat
    requires sys.conf.prefix != ""
  {
    (j: nat) => if j < |sys.plugins| then MatchCount(Filters(sys, j), topic) else 0
  }

  /** What the broker sends out for one published message to the plugins from `k` on. */
  function Fanout(sys: System, topic: string, msg: IBMessage, k: nat): seq<Delivery>
    requires sys.conf.prefix != "" && k <= |sys.plugins|
  {
    Spread(CopiesOf(sys, topic), |sys.plugins|, topic, msg, k)
  }

  lemma FanoutStep(sys: System, topic: string, msg: IBMessage, k: nat)
    requires sys.conf.prefix != "" && k < |sys.plugins|
    ensures Fanout(sys, topic, msg, k) ==
            Repeat(Delivery(k, topic, msg), MatchCount(Filters(sys, k), topic)) + Fanout(sys, topic, msg, k + 1)
  {
  }

  function FlatMap<A, B>(f: A -> seq<B>, s: seq<A>): seq<B> {
    if s == [] then [] else f(s[0]) + FlatMap(f, s[1..])
  }

  lemma {:induction false} FlatMapOfConcat<A, B>(f: A -> seq<B>, a: seq<A>, b: seq<A>)
    ensures FlatMap(f, a + b) == FlatMap(f, a) + FlatMap(f, b)
  {
    if a == [] {
      assert a + b == b;
    } else {
      assert (a + b)[1..] == a[1..] + b;
      FlatMapOfConcat(f, a[1..], b);
    }
  }

  function Router(sys: System): Packet -> seq<Delivery>
    requires sys.conf.prefix != ""
  {
    (packet: Packet) => FanoutOne(sys, packet)
  }

  function FanoutAll(sys: System, packets: seq<Packet>): seq<Delivery>
    requires sys.conf.prefix != ""
  {
    FlatMap(Router(sys), packets)
  }

  function FanoutOne(sys: System, packet: Packet): seq<Delivery>
    requires sys.conf.prefix != ""
  {
    if packet.Publish? && packet.body.Bus? then Fanout(sys, packet.topic, packet.body.msg, 0) else []
  }

  /** The deliveries that the answers to delivery `d` set off. */
  function Caused(sys: System, d: Delivery): seq<Delivery>
    requires sys.conf.prefix != "" && d.to < |sys.plugins|
  {
    FanoutAll(sys, OutPackets(OnlineClient(sys, d.to), Replies(sys.plugins[d.to], d.topic, d.msg), Names(sys.plugins)))
  }

  ghost predicate ValidState(sys: System, st: State) {
    InRange(sys, st.inflight)
  }

  ghost predicate InRange(sys: System, ds: seq<Delivery>) {
    forall d <- ds :: d.to < |sys.plugins|
  }

  function Tagged(k: nat, acts: seq<Act>): multiset<(nat, Act)> {
    if acts == [] then multiset{} else multiset{(k, acts[0])} + Tagged(k, acts[1..])
  }

  function DeliveryActs(sys: System, d: Delivery): multiset<(nat, Act)>
    requires d.to < |sys.plugins|
  {
    Tagged(d.to, ActsOf(sys.plugins[d.to], d.topic, d.msg))
  }

  /** Message `i` in flight is handled: it goes, what it sets off joins, its acts are done. */
  function Deliver(sys: System, st: State, i: nat): State
    requires sys.conf.prefix != "" && ValidState(sys, st) && i < |st.inflight|
  {
    var d := st.inflight[i];
    State(st.inflight[..i] + st.inflight[i + 1..] + Caused(sys, d), st.acts + DeliveryActs(sys, d))
  }

  /** `after` is reached from `st` by handling the chosen messages in turn. */
  ghost predicate Reaches(sys: System, st: State, schedule: seq<nat>, after: State)
    requires sys.conf.prefix != ""
    decreases |schedule|
  {
    if schedule == [] then after == st
    else
      && ValidState(sys, st) && schedule[0] < |st.inflight|
      && Reaches(sys, Deliver(sys, st, schedule[0]), schedule[1..], after)
  }

  // ---------------------------------------------- only events, only to clouds

  ghost predicate ToClouds(sys: System, ds: seq<Delivery>) {
    forall d <- ds :: d.to < |sys.plugins| && sys.plugins[d.to].handler.Cloud?
  }

  ghost predicate OnlyEvents(outs: seq<Outgoing>) {
    forall o <- outs :: o.msg.payload.ptype == "event"
  }

  lemma {:induction false} SerialRepliesAreEvents(d: PluginDetails, cvalue: string, devices: seq<Device>,
          reference: string, target: string)
    ensures OnlyEvents(SerialReplies(d, cvalue, devices, reference, target))
  {
    if devices != [] {
      SerialRepliesAreEvents(d, cvalue, devices[..|devices| - 1], reference, target);
    }
  }

  lemma OneEvent(o: Outgoing)
    requires o.msg.payload.ptype == "event"
    ensures OnlyEvents([o])
  {
  }

  lemma FakeRepliesAreEvents(d: PluginDetails, slots: seq<Option<Device>>, topic: string, msg: IBMessage)
    ensures OnlyEvents(FakeReplies(d, slots, topic, msg))
  {
    if msg.payload.cvalue == "LIST" {
      OneEvent(Outgoing(Occurrence(d.pluginName, true, "LIST", EscapeQuotes(Listing(Present(slots), ", ")), msg.id),
          ""));
    } else {
      SerialRepliesAreEvents(d, "PROPERTIES", WithSerial(Present(slots), SerialOf(topic)), msg.id, "");
    }
  }

  lemma NestRepliesAreEvents(d: PluginDetails, types: seq<seq<Device>>, topic: string, msg: IBMessage)
    ensures OnlyEvents(NestReplies(d, types, topic, msg))
  {
    if msg.payload.cvalue == "LIST" {
      OneEvent(Outgoing(Occurrence(d.pluginName, true, "LIST", Listing(Flatten(types), ",\n"), msg.id), ""));
    } else {
      SerialRepliesAreEvents(d, msg.payload.cvalue, WithSerial(Flatten(types), SerialOf(topic)), msg.id,
          SerialOf(topic));
    }
  }

  lemma RepliesAreEvents(p: Plugin, topic: string, msg: IBMessage)
    ensures OnlyEvents(Replies(p, topic, msg))
  {
    match p.handler
    case Fake(slots) => FakeRepliesAreEvents(p.details, slots, topic, msg);
    case Nest(types) => NestRepliesAreEvents(p.details, types, topic, msg);
    case Lifx => LifxAnswersOnce(p.details, topic, msg);
    case _ =>
  }

  /** An event fans out to cloud connectors only: at most once to each of them. */
  lemma {:induction false} EventFanout(sys: System, p: nat, sender: string, msg: IBMessage, k: nat)
    requires ValidSystem(sys) && p < |sys.plugins| && k <= |sys.plugins|
    ensures var topic := EventTopic(AttachedConfig(sys.conf, sys.plugins[p].details), sender);
            Fanout(sys, topic, msg, k) == if |Levels(sender)| == 1 then CloudsFrom(sys, topic, msg, k) else []
    decreases |sys.plugins| - k
  {
    if k < |sys.plugins| {
      EventFanout(sys, p, sender, msg, k + 1);
      FanoutStep(sys, EventTopic(AttachedConfig(sys.conf, sys.plugins[p].details), sender), msg, k);
      assert WellTyped(sys.plugins[k]) && WellTyped(sys.plugins[p]);
      EventRouting(sys.conf, sys.plugins[p].details, sender, sys.plugins[k].details);
      KindsDiffer();
      RepeatShort(Delivery(k, EventTopic(AttachedConfig(sys.conf, sys.plugins[p].details), sender), msg));
    }
  }

  lemma KindsDiffer()
    ensures "device" != "comm"
    ensures "command" != "event"
  {
    assert "device"[0] != "comm"[0];
    assert "command"[0] != "event"[0];
  }

  lemma RepeatShort(d: Delivery)
    ensures Repeat(d, 0) == [] && Repeat(d, 1) == [d]
  {
    assert Repeat(d, 1) == [d] + Repeat(d, 0);
  }

  /** One delivery for each chosen plugin from `k` on. */
  function Pick(chosen: nat -> bool, n: nat, topic: string, msg: IBMessage, k: nat): seq<Delivery>
    requires k <= n
    decreases n - k
  {
    if k == n then []
    else (if chosen(k) then [Delivery(k, topic, msg)] else []) + Pick(chosen, n, topic, msg, k + 1)
  }

  function IsCloud(sys: System): nat -> bool {
    (k: nat) => k < |sys.plugins| && sys.plugins[k].handler.Cloud?
  }

  function CloudsFrom(sys: System, topic: string, msg: IBMessage, k: nat): seq<Delivery>
    requires k <= |sys.plugins|
  {
    Pick(IsCloud(sys), |sys.plugins|, topic, msg, k)
  }

  lemma {:induction false} CloudsFromAreClouds(sys: System, topic: string, msg: IBMessage, k: nat)
    requires k <= |sys.plugins|
    ensures ToClouds(sys, CloudsFrom(sys, topic, msg, k))
    decreases |sys.plugins| - k
  {
    if k < |sys.plugins| {
      CloudsFromAreClouds(sys, topic, msg, k + 1);
    }
  }

  lemma FanoutOfConcat(sys: System, a: seq<Packet>, b: seq<Packet>)
    requires sys.conf.prefix != ""
    ensures FanoutAll(sys, a + b) == FanoutAll(sys, a) + FanoutAll(sys, b)
  {
    FlatMapOfConcat(Router(sys), a, b);
  }

  lemma FanoutOfPublish(sys: System, cfg: Config, topic: string, msg: IBMessage)
    requires sys.conf.prefix != ""
    ensures FanoutAll(sys, BusPackets(cfg, topic, msg)) ==
            if PublishableTopic(topic) then Fanout(sys, topic, msg, 0) else []
  {
    assert FanoutAll(sys, []) == [];
    if PublishableTopic(topic) {
      var packet := Publish(topic, BusModel.Bus(msg), false, cfg.qos);
      assert [packet][1..] == [];
    }
  }

  /** One event answer of a device plugin: where it goes. */
  lemma EventPacketsOfDevice(sys: System, p: nat, o: Outgoing)
    requires NamedSystem(sys) && p < |sys.plugins| && !sys.plugins[p].handler.Cloud?
    requires o.msg.payload.ptype == "event"
    ensures MessagePackets(OnlineClient(sys, p), o.msg, o.target, Names(sys.plugins)) ==
            BusPackets(AttachedConfig(sys.conf, sys.plugins[p].details),
                       EventTopic(AttachedConfig(sys.conf, sys.plugins[p].details), o.target), o.msg)
  {
    KindsDiffer();
    assert WellTyped(sys.plugins[p]);
    AttachedShape(sys.conf, sys.plugins[p].details);
  }

  lemma {:induction false} OutPacketsReachClouds(sys: System, p: nat, outs: seq<Outgoing>)
    requires ValidSystem(sys) && p < |sys.plugins| && !sys.plugins[p].handler.Cloud?
    requires OnlyEvents(outs)
    ensures ToClouds(sys, FanoutAll(sys, OutPackets(OnlineClient(sys, p), outs, Names(sys.plugins))))
  {
    if outs != [] {
      var n := |outs| - 1;
      var c, names := OnlineClient(sys, p), Names(sys.plugins);
      OutPacketsReachClouds(sys, p, outs[..n]);
      assert outs[n] in outs;
      EventPacketsOfDevice(sys, p, outs[n]);
      var topic := EventTopic(AttachedConfig(sys.conf, sys.plugins[p].details), outs[n].target);
      FanoutOfConcat(sys, OutPackets(c, outs[..n], names), MessagePackets(c, outs[n].msg, outs[n].target, names));
      FanoutOfPublish(sys, AttachedConfig(sys.conf, sys.plugins[p].details), topic, outs[n].msg);
      EventFanout(sys, p, outs[n].target, outs[n].msg, 0);
      CloudsFromAreClouds(sys, topic, outs[n].msg, 0);
    }
  }

  /** Whatever a message sets off goes to cloud connectors, and they set off nothing more. */
  lemma CausedIsFinal(sys: System, d: Delivery)
    requires ValidSystem(sys) && d.to < |sys.plugins|
    ensures ToClouds(sys, Caused(sys, d))
    ensures sys.plugins[d.to].handler.Cloud? ==> Caused(sys, d) == []
  {
    var p := sys.plugins[d.to];
    RepliesAreEvents(p, d.topic, d.msg);
    if !p.handler.Cloud? {
      OutPacketsReachClouds(sys, d.to, Replies(p, d.topic, d.msg));
    }
  }

  // -------------------------------------------------------- only events, only answers

  ghost predicate EventDeliveries(sys: System, ds: seq<Delivery>) {
    forall d <- ds :: d.to < |sys.plugins| && d.msg.payload.ptype == "event"
  }

  lemma {:induction false} RepeatDelivers(d: Delivery, n: nat)
    ensures forall x <- Repeat(d, n) :: x == d
  {
    if n > 0 {
      RepeatDelivers(d, n - 1);
    }
  }

  lemma {:induction false} SpreadDelivers(copies: nat -> nat, n: nat, topic: string, msg: IBMessage, k: nat)
    requires k <= n
    ensures forall d <- Spread(copies, n, topic, msg, k) :: d.to < n && d.msg == msg
    decreases n - k
  {
    if k < n {
      SpreadDelivers(copies, n, topic, msg, k + 1);
      RepeatDelivers(Delivery(k, topic, msg), copies(k));
    }
  }

  /** The packets of an event, whoever sends it: at most one, with that event. */
  lemma EventPacketsAre(c: Client, msg: IBMessage, target: string, names: seq<string>)
    requires msg.payload.ptype == "event"
    ensures MessagePackets(c, msg, target, names) == []
            || exists topic :: MessagePackets(c, msg, target, names) == [Publish(topic, BusModel.Bus(msg), false,
                c.cfg.qos)]
  {
    KindsDiffer();
  }

  lemma EventsFanOut(sys: System, packets: seq<Packet>, topic: string, msg: IBMessage, qos: nat)
    requires sys.conf.prefix != "" && msg.payload.ptype == "event"
    requires packets == [] || packets == [Publish(topic, BusModel.Bus(msg), false, qos)]
    ensures EventDeliveries(sys, FanoutAll(sys, packets))
  {
    assert FanoutAll(sys, []) == [];
    if packets != [] {
      var packet := packets[0];
      assert packets == [packet] && [packet][1..] == [];
      assert FlatMap(Router(sys), [packet]) == FanoutOne(sys, packet) + [];
      SpreadDelivers(CopiesOf(sys, topic), |sys.plugins|, topic, msg, 0);
    }
  }

  lemma {:induction false} OutPacketsAreEvents(sys: System, c: Client, outs: seq<Outgoing>, names: seq<string>)
    requires sys.conf.prefix != "" && OnlyEvents(outs)
    ensures EventDeliveries(sys, FanoutAll(sys, OutPackets(c, outs, names)))
  {
    if outs != [] {
      var n := |outs| - 1;
      var o := outs[n];
      OutPacketsAreEvents(sys, c, outs[..n], names);
      assert o in outs;
      var packets := MessagePackets(c, o.msg, o.target, names);
      EventPacketsAre(c, o.msg, o.target, names);
      var topic :| packets == [] || packets == [Publish(topic, BusModel.Bus(o.msg), false, c.cfg.qos)];
      EventsFanOut(sys, packets, topic, o.msg, c.cfg.qos);
      FanoutOfConcat(sys, OutPackets(c, outs[..n], names), packets);
    }
  }

  lemma CausedAreEvents(sys: System, d: Delivery)
    requires sys.conf.prefix != "" && d.to < |sys.plugins|
    ensures EventDeliveries(sys, Caused(sys, d))
  {
    RepliesAreEvents(sys.plugins[d.to], d.topic, d.msg);
    OutPacketsAreEvents(sys, OnlineClient(sys, d.to), Replies(sys.plugins[d.to], d.topic, d.msg), Names(sys.plugins));
  }

  /** Of all plugins only the bulb plugin answers an event. */
  lemma NoAnswerToEvents(p: Plugin, topic: string, msg: IBMessage)
    requires !p.handler.Lifx? && msg.payload.ptype == "event"
    ensures Replies(p, topic, msg) == []
  {
    KindsDiffer();
  }

  // ------------------------------------------------------------- quiescence

  ghost predicate Silent(sys: System, d: Delivery)
    requires sys.conf.prefix != ""
  {
    d.to < |sys.plugins| && Caused(sys, d) == []
  }

  ghost predicate AllSilent(sys: System, ds: seq<Delivery>)
    requires sys.conf.prefix != ""
  {
    forall d <- ds :: Silent(sys, d)
  }

  /** In a quiet system whatever a message sets off sets off nothing more. */
  lemma CausedIsSilent(sys: System, d: Delivery)
    requires QuietSystem(sys) && d.to < |sys.plugins|
    ensures AllSilent(sys, Caused(sys, d))
  {
    if GoodConf(sys.conf) {
      CausedIsFinal(sys, d);
      forall x <- Caused(sys, d) ensures Silent(sys, x) {
        CausedIsFinal(sys, x);
      }
    } else {
      CausedAreEvents(sys, d);
      forall x <- Caused(sys, d) ensures Silent(sys, x) {
        EventIsSilent(sys, x);
      }
    }
  }

  lemma EventIsSilent(sys: System, d: Delivery)
    requires sys.conf.prefix != "" && NoBulbs(sys) && d.to < |sys.plugins| && d.msg.payload.ptype == "event"
    ensures Caused(sys, d) == []
  {
    assert sys.plugins[d.to] in sys.plugins;
    NoAnswerToEvents(sys.plugins[d.to], d.topic, d.msg);
    assert OutPackets(OnlineClient(sys, d.to), [], Names(sys.plugins)) == [];
  }

  function FoldWork(work: Delivery -> nat, ds: seq<Delivery>): nat {
    if ds == [] then 0 else work(ds[0]) + FoldWork(work, ds[1..])
  }

  function FoldActs(acts: Delivery -> multiset<(nat, Act)>, ds: seq<Delivery>): multiset<(nat, Act)> {
    if ds == [] then multiset{} else acts(ds[0]) + FoldActs(acts, ds[1..])
  }

  lemma {:induction false} FoldsOfConcat(work: Delivery -> nat, acts: Delivery -> multiset<(nat, Act)>,
          a: seq<Delivery>, b: seq<Delivery>)
    ensures FoldWork(work, a + b) == FoldWork(work, a) + FoldWork(work, b)
    ensures FoldActs(acts, a + b) == FoldActs(acts, a) + FoldActs(acts, b)
  {
    if a == [] {
      assert a + b == b;
    } else {
      assert (a + b)[1..] == a[1..] + b;
      FoldsOfConcat(work, acts, a[1..], b);
    }
  }

  lemma FoldsAround(work: Delivery -> nat, acts: Delivery -> multiset<(nat, Act)>,
          a: seq<Delivery>, one: seq<Delivery>, b: seq<Delivery>)
    ensures FoldWork(work, a + one + b) == FoldWork(work, a + b) + FoldWork(work, one)
    ensures FoldActs(acts, a + one + b) == FoldActs(acts, a + b) + FoldActs(acts, one)
  {
    FoldsOfConcat(work, acts, a + one, b);
    FoldsOfConcat(work, acts, a, one);
    FoldsOfConcat(work, acts, a, b);
  }

  function WorkAt(sys: System): Delivery -> nat
    requires sys.conf.prefix != ""
  {
    (d: Delivery) => if d.to < |sys.plugins| then 1 + |Caused(sys, d)| else 0
  }

  /** Messages still to be handled: those in flight and those they will set off. */
  function Work(sys: System, ds: seq<Delivery>): nat
    requires sys.conf.prefix != ""
  {
    FoldWork(WorkAt(sys), ds)
  }

  function ActsAt(sys: System): Delivery -> multiset<(nat, Act)> {
    (d: Delivery) => if d.to < |sys.plugins| then DeliveryActs(sys, d) else multiset{}
  }

  function DirectActs(sys: System, ds: seq<Delivery>): multiset<(nat, Act)> {
    FoldActs(ActsAt(sys), ds)
  }

  function PendingAt(sys: System): Delivery -> multiset<(nat, Act)>
    requires sys.conf.prefix != ""
  {
    (d: Delivery) =>
      if d.to < |sys.plugins| then DeliveryActs(sys, d) + DirectActs(sys, Caused(sys, d)) else multiset{}
  }

  /** Acts still to come from the messages in flight. */
  function Pending(sys: System, ds: seq<Delivery>): multiset<(nat, Act)>
    requires sys.conf.prefix != ""
  {
    FoldActs(PendingAt(sys), ds)
  }

  lemma {:induction false} SumsOfSilent(sys: System, ds: seq<Delivery>)
    requires sys.conf.prefix != "" && AllSilent(sys, ds)
    ensures Work(sys, ds) == |ds|
    ensures Pending(sys, ds) == DirectActs(sys, ds)
  {
    if ds != [] {
      assert Silent(sys, ds[0]);
      SumsOfSilent(sys, ds[1..]);
    }
  }

  lemma SumsOfOne(sys: System, d: Delivery)
    requires QuietSystem(sys) && d.to < |sys.plugins|
    ensures InRange(sys, Caused(sys, d))
    ensures Work(sys, [d]) == 1 + Work(sys, Caused(sys, d))
    ensures Pending(sys, [d]) == DeliveryActs(sys, d) + Pending(sys, Caused(sys, d))
  {
    CausedIsSilent(sys, d);
    SumsOfSilent(sys, Caused(sys, d));
    assert [d][1..] == [];
    assert Work(sys, []) == 0 && Pending(sys, []) == multiset{};
  }

  lemma SumsAfter(sys: System, a: seq<Delivery>, d: Delivery, b: seq<Delivery>)
    requires QuietSystem(sys) && InRange(sys, a) && d.to < |sys.plugins| && InRange(sys, b)
    ensures InRange(sys, a + b + Caused(sys, d))
    ensures Work(sys, a + b + Caused(sys, d)) + 1 == Work(sys, a + [d] + b)
    ensures DeliveryActs(sys, d) + Pending(sys, a + b + Caused(sys, d)) == Pending(sys, a + [d] + b)
  {
    var work, acts := WorkAt(sys), PendingAt(sys);
    SumsOfOne(sys, d);
    FoldsAround(work, acts, a, [d], b);
    FoldsOfConcat(work, acts, a + b, Caused(sys, d));
  }

  /** Handling any one message uses up exactly one unit of work, and what it does plus what
      is still to come stays the same. */
  lemma DeliverUsesOneUnit(sys: System, st: State, i: nat)
    requires QuietSystem(sys) && ValidState(sys, st) && i < |st.inflight|
    ensures var after := Deliver(sys, st, i);
            && ValidState(sys, after)
            && Work(sys, after.inflight) + 1 == Work(sys, st.inflight)
            && after.acts + Pending(sys, after.inflight) == st.acts + Pending(sys, st.inflight)
  {
    var d := st.inflight[i];
    assert d in st.inflight;
    var before, behind := st.inflight[..i], st.inflight[i + 1..];
    assert st.inflight == before + [d] + behind;
    SumsAfter(sys, before, d, behind);
  }

  /** Every burst quiesces: whatever is in flight and in whatever order it is handled, the
      number of steps left is fixed, and so are the acts the burst will have caused. */
  lemma {:induction false} BurstIsDetermined(sys: System, st: State, schedule: seq<nat>, after: State)
    requires QuietSystem(sys) && ValidState(sys, st) && Reaches(sys, st, schedule, after)
    ensures ValidState(sys, after)
    ensures |schedule| + Work(sys, after.inflight) == Work(sys, st.inflight)
    ensures after.acts + Pending(sys, after.inflight) == st.acts + Pending(sys, st.inflight)
    ensures after.inflight == [] <==> |schedule| == Work(sys, st.inflight)
    ensures after.inflight == [] ==> after.acts == st.acts + Pending(sys, st.inflight)
    decreases |schedule|
  {
    if schedule != [] {
      DeliverUsesOneUnit(sys, st, schedule[0]);
      BurstIsDetermined(sys, Deliver(sys, st, schedule[0]), schedule[1..], after);
    }
    assert Work(sys, after.inflight) == 0 <==> after.inflight == [];
    assert Pending(sys, []) == multiset{};
  }

  /** A burst can always be brought to its end, from wherever it has got to. */
  lemma {:induction false} BurstCanEnd(sys: System, st: State) returns (schedule: seq<nat>, after: State)
    requires QuietSystem(sys) && ValidState(sys, st)
    ensures Reaches(sys, st, schedule, after) && after.inflight == []
    decreases if ValidState(sys, st) then Work(sys, st.inflight) else 0
  {
    if st.inflight == [] {
      schedule, after := [], st;
    } else {
      DeliverUsesOneUnit(sys, st, 0);
      var rest;
      rest, after := BurstCanEnd(sys, Deliver(sys, st, 0));
      schedule := [0] + rest;
      assert schedule[1..] == rest;
    }
  }

  // --------------------------------------------------- when the topics agree

  /** Plugin `k` is a bulb plugin on a bus that uses one name for commands and events. */
  ghost predicate EchoSystem(sys: System, k: nat) {
    && NamedSystem(sys) && sys.conf.commandTopic == sys.conf.occurrenceTopic
    && k < |sys.plugins| && sys.plugins[k].handler.Lifx?
  }

  ghost predicate EventFor(d: Delivery, k: nat) {
    d.to == k && d.msg.payload.ptype == "event"
  }

  /** An event is on its way to plugin `k`. */
  ghost predicate Alive(ds: seq<Delivery>, k: nat) {
    exists i :: 0 <= i < |ds| && EventFor(ds[i], k)
  }

  lemma AliveParts(a: seq<Delivery>, b: seq<Delivery>, k: nat)
    ensures Alive(a + b, k) <==> Alive(a, k) || Alive(b, k)
  {
    if Alive(a, k) {
      var i :| 0 <= i < |a| && EventFor(a[i], k);
      assert EventFor((a + b)[i], k);
    }
    if Alive(b, k) {
      var i :| 0 <= i < |b| && EventFor(b[i], k);
      assert EventFor((a + b)[|a| + i], k);
    }
  }

  lemma {:induction false} SpreadReaches(copies: nat -> nat, n: nat, topic: string, msg: IBMessage, k: nat, p: nat)
    requires k <= p < n && copies(p) == 1 && msg.payload.ptype == "event"
    ensures Alive(Spread(copies, n, topic, msg, k), p)
    decreases n - k
  {
    var first, rest := Repeat(Delivery(k, topic, msg), copies(k)), Spread(copies, n, topic, msg, k + 1);
    AliveParts(first, rest, p);
    if k < p {
      SpreadReaches(copies, n, topic, msg, k + 1, p);
    } else {
      RepeatShort(Delivery(k, topic, msg));
      assert EventFor(first[0], p);
    }
  }

  /** A bulb's answer to an event goes out under its plugin's topic, without a sender. */
  lemma EchoAnswer(d: PluginDetails, topic: string, msg: IBMessage)
    requires msg.payload.ptype == "event"
    ensures var outs := LifxReplies(d, topic, msg);
            |outs| == 1 && outs[0].target == "" && outs[0].msg.payload.ptype == "event"
  {
    KindsDiffer();
    LifxAnswersOnce(d, topic, msg);
  }

  /** That topic is also the topic of the commands for the plugin. */
  lemma EchoFanout(sys: System, k: nat, msg: IBMessage)
    requires EchoSystem(sys, k) && msg.payload.ptype == "event"
    ensures var topic := EventTopic(AttachedConfig(sys.conf, sys.plugins[k].details), "");
            PublishableTopic(topic) && Alive(Fanout(sys, topic, msg, 0), k)
  {
    var d := sys.plugins[k].details;
    assert WellTyped(sys.plugins[k]) && GoodId(sys.conf, d.className);
    AttachedShape(sys.conf, d);
    var cfg := AttachedConfig(sys.conf, d);
    var topic := EventTopic(cfg, "");
    EventTopicLevels(cfg, "");
    DeviceFiltersMatch(cfg, topic, [d.className, sys.conf.commandTopic]);
    SpreadReaches(CopiesOf(sys, topic), |sys.plugins|, topic, msg, 0, k);
  }

  /** What the bulb plugin's one answer `o` sets off. */
  lemma CausedByAnswer(sys: System, k: nat, d: Delivery, o: Outgoing)
    requires EchoSystem(sys, k) && d.to == k && Replies(sys.plugins[k], d.topic, d.msg) == [o]
    requires o.target == "" && o.msg.payload.ptype == "event"
    ensures var cfg := AttachedConfig(sys.conf, sys.plugins[k].details);
            Caused(sys, d) == FanoutAll(sys, BusPackets(cfg, EventTopic(cfg, ""), o.msg))
  {
    OutPacketsOfOne(OnlineClient(sys, k), o, Names(sys.plugins));
    EventPacketsOfDevice(sys, k, o);
  }

  lemma EchoCaused(sys: System, k: nat, d: Delivery)
    requires EchoSystem(sys, k) && EventFor(d, k)
    ensures Alive(Caused(sys, d), k)
  {
    var p := sys.plugins[k];
    var cfg, outs := AttachedConfig(sys.conf, p.details), LifxReplies(p.details, d.topic, d.msg);
    EchoAnswer(p.details, d.topic, d.msg);
    var o := outs[0];
    CausedByAnswer(sys, k, d, o);
    EchoFanout(sys, k, o.msg);
    FanoutOfPublish(sys, cfg, EventTopic(cfg, ""), o.msg);
  }

  lemma EchoStep(sys: System, k: nat, st: State, i: nat)
    requires EchoSystem(sys, k) && ValidState(sys, st) && i < |st.inflight| && Alive(st.inflight, k)
    ensures ValidState(sys, Deliver(sys, st, i)) && Alive(Deliver(sys, st, i).inflight, k)
  {
    var d, before, behind := st.inflight[i], st.inflight[..i], st.inflight[i + 1..];
    assert d in st.inflight && st.inflight == before + [d] + behind;
    CausedAreEvents(sys, d);
    AliveParts(before, behind, k);
    AliveParts(before + [d], behind, k);
    AliveParts(before, [d], k);
    AliveParts(before + behind, Caused(sys, d), k);
    if EventFor(d, k) {
      EchoCaused(sys, k, d);
    } else {
      assert !Alive([d], k);
    }
  }

  /** With one name for commands and events a bulb plugin hears its own answers: once an event
      is on its way to it, one is after every step of every run, whatever else is on the bus. */
  lemma {:induction false} EchoForever(sys: System, k: nat, st: State, schedule: seq<nat>, after: State)
    requires EchoSystem(sys, k) && Alive(st.inflight, k)
    requires Reaches(sys, st, schedule, after)
    ensures Alive(after.inflight, k) && after.inflight != []
    decreases |schedule|
  {
    if schedule != [] {
      EchoStep(sys, k, st, schedule[0]);
      EchoForever(sys, k, Deliver(sys, st, schedule[0]), schedule[1..], after);
    }
  }

  /** So there are runs of every length. */
  lemma {:induction false} EchoRuns(sys: System, k: nat, st: State, n: nat) returns (schedule: seq<nat>, after: State)
    requires EchoSystem(sys, k) && ValidState(sys, st) && Alive(st.inflight, k)
    ensures Reaches(sys, st, schedule, after) && |schedule| == n
    decreases n
  {
    if n == 0 {
      schedule, after := [], st;
    } else {
      EchoStep(sys, k, st, 0);
      var rest;
      rest, after := EchoRuns(sys, k, Deliver(sys, st, 0), n - 1);
      schedule := [0] + rest;
      assert schedule[1..] == rest;
    }
  }

  /** No run from the state takes more steps than that. */
  ghost predicate StopsWithin(sys: System, st: State, n: nat)
    requires sys.conf.prefix != ""
  {
    forall schedule, after :: Reaches(sys, st, schedule, after) ==> |schedule| <= n
  }

  /** Every burst quiesces exactly when commands and events have different names or there is
      no bulb plugin. */
  lemma QuiescenceExactly(sys: System)
    requires NamedSystem(sys)
    ensures sys.conf.commandTopic != sys.conf.occurrenceTopic || NoBulbs(sys) <==>
              forall st :: ValidState(sys, st) ==> exists n :: StopsWithin(sys, st, n)
  {
    if QuietSystem(sys) {
      forall st | ValidState(sys, st) ensures exists n :: StopsWithin(sys, st, n) {
        BurstIsBounded(sys, st);
      }
    } else {
      var k :| 0 <= k < |sys.plugins| && sys.plugins[k].handler.Lifx?;
      var st := State([Delivery(k, "", EVENT)], multiset{});
      assert EventFor(st.inflight[0], k);
      assert ValidState(sys, st);
      forall n: nat ensures !StopsWithin(sys, st, n) {
        var schedule, after := EchoRuns(sys, k, st, n + 1);
        assert Reaches(sys, st, schedule, after) && |schedule| > n;
      }
    }
  }

  const EVENT := IBMessage("", IBPayload("event", "", "", ""), "")

  lemma BurstIsBounded(sys: System, st: State)
    requires QuietSystem(sys) && ValidState(sys, st)
    ensures StopsWithin(sys, st, Work(sys, st.inflight))
  {
    forall schedule, after | Reaches(sys, st, schedule, after) ensures |schedule| <= Work(sys, st.inflight) {
      BurstIsDetermined(sys, st, schedule, after);
    }
  }

  lemma OutPacketsOfOne(c: Client, o: Outgoing, names: seq<string>)
    ensures OutPackets(c, [o], names) == MessagePackets(c, o.msg, o.target, names)
  {
    assert [o][..0] == [];
    assert [] + MessagePackets(c, o.msg, o.target, names) == MessagePackets(c, o.msg, o.target, names);
  }
}
