/** Retained presence: what the broker keeps about each client while clients are attached,
    connect, drop, are taken over, are closed and are destroyed.

    The broker is the part of MQTT Version 3.1.1 that matters here: a clean session with its
    will (section 3.1.2.5), retained messages (section 3.3.1.3), publishes of quality 2
    (section 4.3.3) and packets taken from each connection in the order they were written
    (section 4.6). Every call and callback of the client, every packet the broker takes and
    every loss of a connection is one step. */
module Presence {
  import opened Options
  import opened Topics
  import opened Replacement
  import opened BusModel
  import opened Routing

  /** When the broker hands on a publish of quality 2: at the PUBLISH packet (method B of
      section 4.3.3) or at the PUBREL packet that follows (method A). */
  datatype HandOn = AtPublish | AtRelease

  /** A retained message that waits for its PUBREL packet. */
  datatype Stored = Stored(topic: string, text: string)

  datatype Session = Closed | Open(will: Will, subs: set<string>, held: seq<Stored>)

  /** A client and the broker's side of its connection. The client's `wire` holds what the
      broker has not yet taken. A destroyed client is `gone`. */
  datatype Link = Link(client: Client, session: Session, gone: bool)

  type Retained = map<string, string>

  datatype Action =
    | SetListener(details: PluginDetails)
    | Init(created: bool)
    /** The broker accepts a connection; one that is still open is closed first. */
    | Accept
    | OnConnect(rc: int)
    | OnDisconnect
    | UserDisconnect
    | Free
    | Destroy
    | Send(msg: IBMessage, target: string, names: seq<string>)
    /** The library repeats a status message that was not acknowledged. */
    | Repeat(available: bool)
    /** The library learns that the broker has a publish of quality 2 and releases it. */
    | Acknowledge
    /** The broker takes the oldest packet. */
    | Take
    /** The broker sees the connection end without a DISCONNECT packet. */
    | Lose

  /** An empty payload removes the retained message. */
  function Retain(r: Retained, topic: string, text: string): Retained {
    if text == "" then r - {topic} else r[topic := text]
  }

  predicate Says(r: Retained, topic: string, text: string) {
    topic in r && r[topic] == text
  }

  function PublishWill(s: Session, r: Retained): Retained {
    if s.Open? then Retain(r, s.will.topic, s.will.payload) else r
  }

  /** A status message of this quality is retained as soon as the broker takes it. */
  predicate Prompt(h: HandOn, qos: nat) {
    h == AtPublish || qos != 2
  }

  function TakePacket(h: HandOn, l: Link, r: Retained): (Link, Retained) {
    if l.session.Closed? || l.client.wire == [] then (l, r)
    else
      var s := l.session;
      var rest := l.(client := l.client.(wire := l.client.wire[1..]));
      match l.client.wire[0]
      case Subscribe(filter, _) => (rest.(session := s.(subs := s.subs + {filter})), r)
      case Publish(topic, body, retain, qos) =>
        if !retain || !body.Status? then (rest, r)
        else if Prompt(h, qos) then (rest, Retain(r, topic, body.text))
        else (rest.(session := s.(held := s.held + [Stored(topic, body.text)])), r)
      case Release =>
        if s.held == [] then (rest, r)
        else (rest.(session := s.(held := s.held[1..])), Retain(r, s.held[0].topic, s.held[0].text))
      case Disconnect => (l.(client := l.client.(wire := [], up := false), session := Closed), r)
  }

  /** A release is written when something waits for one and none is under way. */
  function AfterAcknowledge(l: Link): Client {
    if l.session.Open? && l.session.held != [] && Release !in l.client.wire then Write(l.client, [Release])
    else l.client
  }

  function LoseConnection(l: Link, r: Retained): (Link, Retained) {
    if l.session.Open? then (l.(client := l.client.(up := false, wire := []), session := Closed),
        PublishWill(l.session, r))
    else (l, r)
  }

  function Act(h: HandOn, l: Link, r: Retained, a: Action): (Link, Retained) {
    var c := l.client;
    if a.Take? then TakePacket(h, l, r)
    else if a.Lose? then LoseConnection(l, r)
    else if l.gone then (l, r)
    else match a
      case SetListener(details) => (if c.cfg.prefix != "" then l.(client := AfterSetListener(c, details)) else l, r)
      case Init(created) => (if c.handle.None? then l.(client := AfterInit(c, created)) else l, r)
      case Accept =>
        if c.handle.Some? && !c.up then
          (Link(c.(up := true, wire := []), Open(c.handle.value, {}, []), false), PublishWill(l.session, r))
        else (l, r)
      case OnConnect(rc) => (if c.handle.Some? then l.(client := AfterOnConnect(c, rc)) else l, r)
      case OnDisconnect => (l.(client := AfterOnDisconnect(c)), r)
      case UserDisconnect => (l.(client := AfterDisconnect(c)), r)
      case Free => (l.(client := AfterFree(c)), r)
      case Destroy => (l.(client := AfterFree(c).(listener := None), gone := true), r)
      case Send(msg, target, names) => (l.(client := AfterSendMessage(c, msg, target, names)), r)
      case Repeat(available) =>
        (l.(client := Write(c, StatusPackets(c, if available then "available" else c.cfg.willPayload))), r)
      case Acknowledge => (l.(client := AfterAcknowledge(l)), r)
      case _ => (l, r)
  }

  // ----------------------------------------------------------- status topics

  /** The status topic is prefix/id/status exactly when the prefix does not occur again in
      what follows it: otherwise the replacement fires more than once. */
  lemma StatusTopicExact(conf: Config, d: PluginDetails)
    requires conf.prefix != ""
    ensures AttachedConfig(conf, d).willTopic == conf.prefix + "/" + d.className + "/" + conf.willTopic
            <==> !Occurs(conf.prefix, "/" + conf.willTopic)
  {
    var tail := "/" + conf.willTopic;
    var to := conf.prefix + "/" + d.className;
    ReplacedTopic(conf, d);
    assert to + tail == conf.prefix + "/" + d.className + "/" + conf.willTopic;
    if Occurs(conf.prefix, tail) {
      ReplaceGrows(tail, conf.prefix, to);
    } else {
      ReplaceWithoutOccurrence(tail, conf.prefix, to);
    }
  }

  /** The first replacement is that of the prefix itself. */
  lemma ReplacedTopic(conf: Config, d: PluginDetails)
    requires conf.prefix != ""
    ensures var to := conf.prefix + "/" + d.className;
            AttachedConfig(conf, d).willTopic == to + Replace("/" + conf.willTopic, conf.prefix, to)
  {
    var whole := conf.prefix + "/" + conf.willTopic;
    assert whole[..|conf.prefix|] == conf.prefix && whole[|conf.prefix|..] == "/" + conf.willTopic;
  }

  /** A gateway whose serial is the name of the status topic: the replacement fires twice. */
  lemma DoubledStatusTopic(conf: Config, d: PluginDetails)
    requires conf.prefix != "" && conf.prefix[0] != '/' && conf.willTopic == conf.prefix
    ensures var own := conf.prefix + "/" + d.className; AttachedConfig(conf, d).willTopic == own + "/" + own
  {
    var p, own := conf.prefix, conf.prefix + "/" + d.className;
    var tail := "/" + p;
    assert tail[0] == '/' && tail[..|p|][0] != p[0] && tail[1..] == p;
    assert p[..|p|] == p && p[|p|..] == "" && Replace("", p, own) == "";
    assert Replace(p, p, own) == own + "";
    assert Replace(tail, p, own) == "/" + own;
    ReplacedTopic(conf, d);
  }

  /** For instance the lamp of a gateway called "status". */
  lemma StatusOfLamp(conf: Config, d: PluginDetails)
    requires conf.prefix == conf.willTopic == "status" && d.className == "lamp"
    ensures AttachedConfig(conf, d).willTopic == "status/lamp/status/lamp"
  {
    DoubledStatusTopic(conf, d);
  }

  /** The client that `setConfig` leaves: the root's, and a plugin's before it is attached. */
  function BaseClient(conf: Config): Client {
    AfterSetConfig(NewClient(conf), conf)
  }

  /** The root client under the prefix, and each plugin's client under its class name. */
  function ClientFor(conf: Config, plugins: map<string, PluginDetails>, id: string): Client
    requires conf.prefix != "" && (id == conf.prefix || id in plugins)
  {
    if id == conf.prefix then BaseClient(conf) else AttachedClient(conf, plugins[id])
  }

  function WillOf(conf: Config, plugins: map<string, PluginDetails>, id: string): Will
    requires conf.prefix != "" && (id == conf.prefix || id in plugins)
  {
    WillFor(ClientFor(conf, plugins, id).cfg)
  }

  ghost predicate StatusNames(conf: Config) {
    conf.prefix != "" && WildFree(conf.prefix) && WildFree(conf.willTopic)
  }

  ghost predicate GoodPlugins(conf: Config, plugins: map<string, PluginDetails>) {
    forall id <- plugins :: plugins[id].className == id && WildFree(id) && id != conf.prefix
  }

  /** Each replacement lengthens the topic by the id and a slash. */
  lemma StatusTopicLength(conf: Config, d: PluginDetails) returns (n: nat)
    requires conf.prefix != ""
    ensures n == Fires(conf.prefix + "/" + conf.willTopic, conf.prefix) >= 1
    ensures |AttachedConfig(conf, d).willTopic| == |BaseClient(conf).cfg.willTopic| + n * (|d.className| + 1)
  {
    var whole, to := conf.prefix + "/" + conf.willTopic, conf.prefix + "/" + d.className;
    n := Fires(whole, conf.prefix);
    assert whole[..|conf.prefix|] == conf.prefix;
    ReplaceLength(whole, conf.prefix, to);
  }

  lemma LongerTimes(n: nat, a: nat, b: nat)
    requires n >= 1 && a < b
    ensures n * a < n * b
  {
  }

  /** Clients with different ids have different status topics, whatever the prefix: the
      replacement fires equally often for both. */
  lemma StatusTopicsDiffer(conf: Config, plugins: map<string, PluginDetails>, a: string, b: string)
    requires conf.prefix != "" && GoodPlugins(conf, plugins) && a != b
    requires (a == conf.prefix || a in plugins) && (b == conf.prefix || b in plugins)
    ensures WillOf(conf, plugins, a).topic != WillOf(conf, plugins, b).topic
  {
    if a == conf.prefix {
      RootTopicDiffers(conf, plugins[b]);
    } else if b == conf.prefix {
      RootTopicDiffers(conf, plugins[a]);
    } else {
      PluginTopicsDiffer(conf, plugins[a], plugins[b]);
    }
  }

  lemma RootTopicDiffers(conf: Config, d: PluginDetails)
    requires conf.prefix != ""
    ensures AttachedConfig(conf, d).willTopic != BaseClient(conf).cfg.willTopic
  {
    var n := StatusTopicLength(conf, d);
    LongerTimes(n, 0, |d.className| + 1);
  }

  lemma PluginTopicsDiffer(conf: Config, a: PluginDetails, b: PluginDetails)
    requires conf.prefix != "" && a.className != b.className
    ensures AttachedConfig(conf, a).willTopic != AttachedConfig(conf, b).willTopic
  {
    var x, y := AttachedConfig(conf, a).willTopic, AttachedConfig(conf, b).willTopic;
    var n := StatusTopicLength(conf, a);
    var m := StatusTopicLength(conf, b);
    if |a.className| < |b.className| {
      LongerTimes(n, |a.className| + 1, |b.className| + 1);
    } else if |a.className| > |b.className| {
      LongerTimes(n, |b.className| + 1, |a.className| + 1);
    } else {
      ReplacedTopic(conf, a);
      ReplacedTopic(conf, b);
      var i, j := |conf.prefix| + 1, |conf.prefix| + 1 + |a.className|;
      assert x[i..j] == a.className && y[i..j] == b.className;
    }
  }

  lemma StatusTopicPublishable(conf: Config, plugins: map<string, PluginDetails>, id: string)
    requires StatusNames(conf) && GoodPlugins(conf, plugins) && (id == conf.prefix || id in plugins)
    ensures PublishableTopic(WillOf(conf, plugins, id).topic)
  {
    if id != conf.prefix {
      var whole, to := conf.prefix + "/" + conf.willTopic, conf.prefix + "/" + id;
      ReplaceBringsIn(whole, conf.prefix, to, '+');
      ReplaceBringsIn(whole, conf.prefix, to, '#');
      ReplacedTopic(conf, plugins[id]);
    }
  }

  // ------------------------------------------------------- one client's link

  ghost predicate StatusPacket(p: Packet, will: Will) {
    p == Publish(will.topic, Status(will.payload), true, will.qos)
  }

  /** What is retained goes to the client's own status topic with the will's quality. */
  predicate OwnStatus(p: Packet, will: Will) {
    p.Publish? && p.retain ==> p.topic == will.topic && p.qos == will.qos
  }

  /** Once DISCONNECT is on the wire it is the last packet, nothing can follow it, and the
      farewell stands right before it or has already been taken. */
  ghost predicate GoodWire(c: Client, r: Retained, will: Will) {
    var n := |c.wire|;
    && (forall i :: 0 <= i < n ==> OwnStatus(c.wire[i], will))
    && (forall i :: 0 <= i < n && c.wire[i].Disconnect? ==> i == n - 1 && !c.up)
    && (n >= 2 && c.wire[n - 1].Disconnect? ==> StatusPacket(c.wire[n - 2], will))
    && (n == 1 && c.wire[0].Disconnect? ==> !Says(r, will.topic, "available"))
  }

  ghost predicate GoodLink(l: Link, r: Retained, will: Will) {
    && WillFor(l.client.cfg) == will
    && (l.client.handle.Some? ==> l.client.handle.value == will)
    && (l.client.up ==> l.client.handle.Some? && l.session.Open?)
    && (l.session.Open? ==> l.session.will == will && l.session.held == [])
    && (l.session.Closed? ==> l.client.wire == [] && !Says(r, will.topic, "available"))
    && GoodWire(l.client, r, will)
  }

  ghost predicate SafeWill(h: HandOn, will: Will) {
    PublishableTopic(will.topic) && will.payload != "available" && Prompt(h, will.qos)
  }

  lemma WriteKeepsGood(l: Link, r: Retained, will: Will, packets: seq<Packet>)
    requires GoodLink(l, r, will)
    requires forall p <- packets :: !p.Disconnect? && OwnStatus(p, will)
    ensures GoodLink(l.(client := Write(l.client, packets)), r, will)
  {
    var c, after := l.client, Write(l.client, packets);
    if c.handle.Some? && c.up {
      forall i | 0 <= i < |after.wire|
        ensures !after.wire[i].Disconnect? && OwnStatus(after.wire[i], will)
      {
        if i >= |c.wire| {
          assert after.wire[i] == packets[i - |c.wire|];
        } else {
          assert after.wire[i] == c.wire[i];
        }
      }
    }
  }

  lemma {:induction false} BroadcastNotRetained(cfg: Config, msg: IBMessage, names: seq<string>)
    ensures forall p <- BroadcastPackets(cfg, msg, names) :: p.Publish? && !p.retain
  {
    if names != [] {
      BroadcastNotRetained(cfg, msg, names[1..]);
    }
  }

  lemma DisconnectKeepsGood(l: Link, r: Retained, will: Will)
    requires GoodLink(l, r, will) && PublishableTopic(will.topic)
    ensures GoodLink(l.(client := AfterDisconnect(l.client)), r, will)
  {
    var c, after := l.client, AfterDisconnect(l.client);
    if c.handle.Some? && c.up {
      var n := |c.wire|;
      assert after.wire ==
             c.wire + [Publish(will.topic, Status(will.payload), true, will.qos), Packet.Disconnect];
      assert forall i :: 0 <= i < n ==> after.wire[i] == c.wire[i];
    }
  }

  lemma FreeKeepsGood(l: Link, r: Retained, will: Will)
    requires GoodLink(l, r, will) && PublishableTopic(will.topic)
    ensures GoodLink(l.(client := AfterFree(l.client)), r, will)
  {
    DisconnectKeepsGood(l, r, will);
  }

  /** A good wire without its first packet. */
  lemma RestOfWire(c: Client, r: Retained, r': Retained, will: Will)
    requires GoodWire(c, r, will) && c.wire != [] && !c.wire[0].Disconnect?
    requires |c.wire| == 2 && c.wire[1].Disconnect? ==> !Says(r', will.topic, "available")
    ensures GoodWire(c.(wire := c.wire[1..]), r', will)
  {
    var wire, rest := c.wire, c.wire[1..];
    assert forall i :: 0 <= i < |rest| ==> rest[i] == wire[i + 1];
  }

  lemma TakeKeepsGood(h: HandOn, l: Link, r: Retained, will: Will)
    requires GoodLink(l, r, will) && SafeWill(h, will)
    ensures GoodLink(TakePacket(h, l, r).0, TakePacket(h, l, r).1, will)
  {
    if l.session.Open? && l.client.wire != [] && !l.client.wire[0].Disconnect? {
      RestOfWire(l.client, r, TakePacket(h, l, r).1, will);
    }
  }

  lemma SendKeepsGood(l: Link, r: Retained, will: Will, msg: IBMessage, target: string, names: seq<string>)
    requires GoodLink(l, r, will)
    ensures GoodLink(l.(client := AfterSendMessage(l.client, msg, target, names)), r, will)
  {
    BroadcastNotRetained(l.client.cfg, msg, names);
    WriteKeepsGood(l, r, will, MessagePackets(l.client, msg, target, names));
  }

  lemma AnnounceKeepsGood(l: Link, r: Retained, will: Will)
    requires GoodLink(l, r, will)
    ensures GoodLink(l.(client := AfterOnConnect(l.client, 0)), r, will)
  {
    var cfg := l.client.cfg;
    WriteKeepsGood(l, r, will, SubscribePackets(cfg.subTopicList, cfg.qos) + StatusPackets(l.client, "available"));
  }

  /** Every step but attaching keeps the invariant. */
  lemma ActKeepsGood(h: HandOn, l: Link, r: Retained, will: Will, a: Action)
    requires GoodLink(l, r, will) && SafeWill(h, will) && (a.SetListener? ==> l.gone)
    ensures GoodLink(Act(h, l, r, a).0, Act(h, l, r, a).1, will)
  {
    if a.Take? {
      TakeKeepsGood(h, l, r, will);
    } else if a.Send? {
      SendKeepsGood(l, r, will, a.msg, a.target, a.names);
    } else if a.Repeat? {
      var text := if a.available then "available" else l.client.cfg.willPayload;
      WriteKeepsGood(l, r, will, StatusPackets(l.client, text));
    } else {
      CallKeepsGood(h, l, r, will, a);
    }
  }

  lemma CallKeepsGood(h: HandOn, l: Link, r: Retained, will: Will, a: Action)
    requires GoodLink(l, r, will) && SafeWill(h, will) && (a.SetListener? ==> l.gone)
    requires !a.Take? && !a.Send? && !a.Repeat?
    ensures GoodLink(Act(h, l, r, a).0, Act(h, l, r, a).1, will)
  {
    match a {
      case OnConnect(rc) => AnnounceKeepsGood(l, r, will);
      case UserDisconnect => DisconnectKeepsGood(l, r, will);
      case Free => FreeKeepsGood(l, r, will);
      case Destroy => FreeKeepsGood(l, r, will);
      case _ =>
    }
  }

  /** A client's steps touch no retained message but its own. */
  lemma ActFrame(h: HandOn, l: Link, r: Retained, will: Will, a: Action, topic: string)
    requires GoodLink(l, r, will) && topic != will.topic
    ensures forall text :: Says(Act(h, l, r, a).1, topic, text) <==> Says(r, topic, text)
  {
  }

  // --------------------------------------------------------- all the clients

  datatype Net = Net(links: map<string, Link>, retained: Retained)
  datatype Event = Event(id: string, action: Action)

  function NetStep(h: HandOn, net: Net, e: Event): Net {
    if e.id in net.links then
      var (l, r) := Act(h, net.links[e.id], net.retained, e.action);
      Net(net.links[e.id := l], r)
    else net
  }

  function NetAfter(h: HandOn, net: Net, events: seq<Event>): Net {
    if events == [] then net else NetStep(h, NetAfter(h, net, events[..|events| - 1]), events[|events| - 1])
  }

  /** No client is attached or connected yet. */
  function InitialNet(conf: Config, plugins: map<string, PluginDetails>): Net {
    Net(map id | id in plugins.Keys + {conf.prefix} :: Link(BaseClient(conf), Closed, false), map[])
  }

  /** The order in which the plugins call: a plugin's client is given its listener once, and
      initialised only after that. */
  ghost predicate InOrder(conf: Config, plugins: map<string, PluginDetails>, net: Net, e: Event) {
    e.id in net.links ==>
      var c := net.links[e.id].client;
      && (e.action.SetListener? ==>
            e.id != conf.prefix && e.id in plugins && e.action.details == plugins[e.id] && c.listener.None?)
      && (e.action.Init? ==> e.id == conf.prefix || c.listener.Some?)
  }

  ghost predicate Orderly(h: HandOn, conf: Config, plugins: map<string, PluginDetails>, events: seq<Event>) {
    events == [] ||
    (var front := events[..|events| - 1];
     && Orderly(h, conf, plugins, front)
     && InOrder(conf, plugins, NetAfter(h, InitialNet(conf, plugins), front), events[|events| - 1]))
  }

  /** A plugin's client that has not been attached: it has no connection and can get none. */
  ghost predicate Dormant(conf: Config, l: Link, r: Retained, will: Will) {
    && l.client.cfg == BaseClient(conf).cfg && l.client.listener.None?
    && l.client.handle.None? && !l.client.up && !l.client.connected
    && l.session.Closed? && l.client.wire == [] && !Says(r, will.topic, "available")
  }

  ghost predicate GoodClient(conf: Config, plugins: map<string, PluginDetails>, id: string, l: Link, r: Retained)
    requires conf.prefix != "" && (id == conf.prefix || id in plugins)
  {
    var will := WillOf(conf, plugins, id);
    || (GoodLink(l, r, will) && (id == conf.prefix || l.client.listener.Some? || l.gone))
    || (id != conf.prefix && Dormant(conf, l, r, will))
  }

  ghost predicate GoodNet(conf: Config, plugins: map<string, PluginDetails>, net: Net)
    requires conf.prefix != ""
  {
    && net.links.Keys == plugins.Keys + {conf.prefix}
    && forall id <- net.links :: GoodClient(conf, plugins, id, net.links[id], net.retained)
  }

  ghost predicate StatusConf(h: HandOn, conf: Config) {
    StatusNames(conf) && conf.willPayload != "available" && Prompt(h, conf.willQos)
  }

  lemma WillsAreSafe(h: HandOn, conf: Config, plugins: map<string, PluginDetails>, id: string)
    requires StatusConf(h, conf) && GoodPlugins(conf, plugins) && (id == conf.prefix || id in plugins)
    ensures SafeWill(h, WillOf(conf, plugins, id))
  {
    StatusTopicPublishable(conf, plugins, id);
  }

  lemma InitialNetGood(conf: Config, plugins: map<string, PluginDetails>)
    requires StatusNames(conf) && GoodPlugins(conf, plugins)
    ensures GoodNet(conf, plugins, InitialNet(conf, plugins))
  {
  }

  /** Attaching makes a dormant client a good one under its own status topic. */
  lemma AttachIsGood(h: HandOn, conf: Config, plugins: map<string, PluginDetails>, id: string, l: Link, r: Retained)
    requires StatusNames(conf) && GoodPlugins(conf, plugins) && id in plugins && !l.gone
    requires Dormant(conf, l, r, WillOf(conf, plugins, id))
    ensures GoodClient(conf, plugins, id, Act(h, l, r, SetListener(plugins[id])).0, r)
  {
    var after := AfterSetListener(l.client, plugins[id]);
    assert after.cfg == AttachedConfig(conf, plugins[id]);
  }

  lemma DormantStays(h: HandOn, conf: Config, l: Link, r: Retained, will: Will, a: Action)
    requires Dormant(conf, l, r, will) && (a.SetListener? ==> l.gone) && !a.Init?
    ensures Dormant(conf, Act(h, l, r, a).0, r, will) && Act(h, l, r, a).1 == r
  {
  }

  /** A step in order keeps the client that takes it good. */
  lemma OwnStepGood(h: HandOn, conf: Config, plugins: map<string, PluginDetails>, net: Net, e: Event)
    requires StatusConf(h, conf) && GoodPlugins(conf, plugins) && GoodNet(conf, plugins, net)
    requires e.id in net.links && InOrder(conf, plugins, net, e)
    ensures var (l, r) := Act(h, net.links[e.id], net.retained, e.action);
            GoodClient(conf, plugins, e.id, l, r)
  {
    var l, r, will := net.links[e.id], net.retained, WillOf(conf, plugins, e.id);
    WillsAreSafe(h, conf, plugins, e.id);
    assert GoodClient(conf, plugins, e.id, l, r);
    if e.id != conf.prefix && Dormant(conf, l, r, will) {
      if e.action.SetListener? && !l.gone {
        AttachIsGood(h, conf, plugins, e.id, l, r);
      } else {
        DormantStays(h, conf, l, r, will, e.action);
      }
    } else {
      ActKeepsGood(h, l, r, will, e.action);
      if e.id != conf.prefix {
        ListenerStays(h, l, r, e.action);
      }
    }
  }

  lemma ListenerStays(h: HandOn, l: Link, r: Retained, a: Action)
    requires l.client.listener.Some? || l.gone
    ensures Act(h, l, r, a).0.client.listener.Some? || Act(h, l, r, a).0.gone
  {
  }

  /** Of what is retained a client's invariant asks only about its own topic. */
  lemma OnlyOwnTopic(conf: Config, plugins: map<string, PluginDetails>, id: string, l: Link, r: Retained, r': Retained)
    requires conf.prefix != "" && (id == conf.prefix || id in plugins)
    requires GoodClient(conf, plugins, id, l, r)
    requires var topic := WillOf(conf, plugins, id).topic; Says(r', topic, "available") ==> Says(r, topic, "available")
    ensures GoodClient(conf, plugins, id, l, r')
  {
  }

  lemma StepFrame(h: HandOn, conf: Config, plugins: map<string, PluginDetails>, id: string, l: Link, r: Retained,
                  a: Action, topic: string)
    requires conf.prefix != "" && (id == conf.prefix || id in plugins)
    requires GoodClient(conf, plugins, id, l, r) && topic != WillOf(conf, plugins, id).topic
    ensures Says(Act(h, l, r, a).1, topic, "available") <==> Says(r, topic, "available")
  {
    var will := WillOf(conf, plugins, id);
    if GoodLink(l, r, will) {
      ActFrame(h, l, r, will, a, topic);
    } else {
      DormantRetains(h, conf, l, r, will, a);
    }
  }

  lemma OthersStayGood(h: HandOn, conf: Config, plugins: map<string, PluginDetails>, net: Net, e: Event, id: string)
    requires StatusNames(conf) && GoodPlugins(conf, plugins) && GoodNet(conf, plugins, net)
    requires e.id in net.links && id in net.links && id != e.id
    ensures GoodClient(conf, plugins, id, net.links[id], Act(h, net.links[e.id], net.retained, e.action).1)
  {
    var l, r := net.links[e.id], net.retained;
    assert GoodClient(conf, plugins, e.id, l, r) && GoodClient(conf, plugins, id, net.links[id], r);
    StatusTopicsDiffer(conf, plugins, id, e.id);
    StepFrame(h, conf, plugins, e.id, l, r, e.action, WillOf(conf, plugins, id).topic);
    OnlyOwnTopic(conf, plugins, id, net.links[id], r, Act(h, l, r, e.action).1);
  }

  lemma DormantRetains(h: HandOn, conf: Config, l: Link, r: Retained, will: Will, a: Action)
    requires Dormant(conf, l, r, will)
    ensures Act(h, l, r, a).1 == r
  {
  }

  lemma NetStepGood(h: HandOn, conf: Config, plugins: map<string, PluginDetails>, net: Net, e: Event)
    requires StatusConf(h, conf) && GoodPlugins(conf, plugins) && GoodNet(conf, plugins, net)
    requires InOrder(conf, plugins, net, e)
    ensures GoodNet(conf, plugins, NetStep(h, net, e))
  {
    if e.id in net.links {
      var (l, r) := Act(h, net.links[e.id], net.retained, e.action);
      var after := Net(net.links[e.id := l], r);
      OwnStepGood(h, conf, plugins, net, e);
      forall id | id in after.links ensures GoodClient(conf, plugins, id, after.links[id], after.retained) {
        if id != e.id {
          OthersStayGood(h, conf, plugins, net, e, id);
        }
      }
    }
  }

  lemma {:induction false} ReachableNetGood(h: HandOn, conf: Config, plugins: map<string, PluginDetails>,
          events: seq<Event>)
    requires StatusConf(h, conf) && GoodPlugins(conf, plugins) && Orderly(h, conf, plugins, events)
    ensures GoodNet(conf, plugins, NetAfter(h, InitialNet(conf, plugins), events))
  {
    if events == [] {
      InitialNetGood(conf, plugins);
    } else {
      var front := events[..|events| - 1];
      ReachableNetGood(h, conf, plugins, front);
      NetStepGood(h, conf, plugins, NetAfter(h, InitialNet(conf, plugins), front), events[|events| - 1]);
    }
  }

  /** A client whose retained status is "available" has an open session. */
  ghost predicate NotStale(conf: Config, plugins: map<string, PluginDetails>, net: Net, id: string)
    requires conf.prefix != "" && (id == conf.prefix || id in plugins)
  {
    && id in net.links
    && (Says(net.retained, ClientFor(conf, plugins, id).cfg.willTopic, "available") ==> net.links[id].session.Open?)
  }

  /** No stale presence, after any orderly run of calls, callbacks, packets and losses. */
  lemma NoStalePresence(h: HandOn, conf: Config, plugins: map<string, PluginDetails>, events: seq<Event>, id: string)
    requires StatusConf(h, conf) && GoodPlugins(conf, plugins) && Orderly(h, conf, plugins, events)
    requires id in plugins || id == conf.prefix
    ensures NotStale(conf, plugins, NetAfter(h, InitialNet(conf, plugins), events), id)
  {
    var net := NetAfter(h, InitialNet(conf, plugins), events);
    ReachableNetGood(h, conf, plugins, events);
    assert GoodClient(conf, plugins, id, net.links[id], net.retained);
  }

  // ------------------------------------------------------- runs of one client

  function LinkAfter(h: HandOn, l: Link, r: Retained, actions: seq<Action>): (Link, Retained) {
    if actions == [] then (l, r)
    else
      var (before, kept) := LinkAfter(h, l, r, actions[..|actions| - 1]);
      Act(h, before, kept, actions[|actions| - 1])
  }

  lemma {:induction false} LinkAfterConcat(h: HandOn, l: Link, r: Retained, a: seq<Action>, b: seq<Action>)
    ensures var (mid, kept) := LinkAfter(h, l, r, a);
            LinkAfter(h, l, r, a + b) == LinkAfter(h, mid, kept, b)
  {
    if b == [] {
      assert a + b == a;
    } else {
      var front := b[..|b| - 1];
      assert (a + b)[..|a + b| - 1] == a + front;
      LinkAfterConcat(h, l, r, a, front);
    }
  }

  /** The user has the client close its connection: by asking for it, or by releasing a client
      that the connect callback has found connected. */
  predicate ClosedByUser(l: Link, a: Action) {
    !l.gone && (a.UserDisconnect? || ((a.Free? || a.Destroy?) && l.client.connected))
  }

  ghost predicate ClosedAt(h: HandOn, l: Link, r: Retained, actions: seq<Action>, i: nat) {
    i < |actions| && ClosedByUser(LinkAfter(h, l, r, actions[..i]).0, actions[i])
  }

  lemma ActMarksUser(h: HandOn, l: Link, r: Retained, a: Action)
    ensures Act(h, l, r, a).0.client.byUser <==> l.client.byUser || ClosedByUser(l, a)
  {
  }

  /** The disconnect callback asks for a reconnect exactly as long as `byUser` is false. It is
      true after a run exactly when at some point of the run the user closed the connection:
      no loss, callback or new connection sets it, and nothing clears it again. */
  lemma {:induction false} ByUserExactly(h: HandOn, l: Link, r: Retained, actions: seq<Action>)
    requires !l.client.byUser
    ensures LinkAfter(h, l, r, actions).0.client.byUser <==> exists i :: ClosedAt(h, l, r, actions, i)
  {
    if actions != [] {
      var n := |actions| - 1;
      var front := actions[..n];
      ByUserExactly(h, l, r, front);
      var (before, kept) := LinkAfter(h, l, r, front);
      ActMarksUser(h, before, kept, actions[n]);
      forall i: nat | i < n ensures ClosedAt(h, l, r, front, i) <==> ClosedAt(h, l, r, actions, i) {
        assert front[..i] == actions[..i];
      }
      assert ClosedAt(h, l, r, actions, n) <==> ClosedByUser(before, actions[n]);
    }
  }

  function EventsOf(id: string, actions: seq<Action>): (r: seq<Event>)
    ensures |r| == |actions|
  {
    seq(|actions|, i requires 0 <= i < |actions| => Event(id, actions[i]))
  }

  /** A run in which one client alone takes part. */
  lemma {:induction false} RunOfOne(h: HandOn, net: Net, id: string, actions: seq<Action>)
    requires id in net.links
    ensures var after := NetAfter(h, net, EventsOf(id, actions));
            var (l, r) := LinkAfter(h, net.links[id], net.retained, actions);
            id in after.links && after.links[id] == l && after.retained == r
  {
    if actions != [] {
      var front := actions[..|actions| - 1];
      RunOfOne(h, net, id, front);
      assert EventsOf(id, actions)[..|actions| - 1] == EventsOf(id, front);
    }
  }

  lemma {:induction false} RootRunsAreOrderly(h: HandOn, conf: Config, plugins: map<string, PluginDetails>,
          actions: seq<Action>)
    requires forall a <- actions :: !a.SetListener?
    ensures Orderly(h, conf, plugins, EventsOf(conf.prefix, actions))
  {
    if actions != [] {
      var front := actions[..|actions| - 1];
      RootRunsAreOrderly(h, conf, plugins, front);
      assert EventsOf(conf.prefix, actions)[..|actions| - 1] == EventsOf(conf.prefix, front);
    }
  }

  function Takes(n: nat): (r: seq<Action>)
    ensures |r| == n && forall a <- r :: a == Take
  {
    if n == 0 then [] else Takes(n - 1) + [Take]
  }

  lemma FiltersOfSnoc(subs: set<string>, filters: seq<string>, n: nat)
    requires |filters| == n + 1
    ensures subs + (set f | f in filters) == subs + (set f | f in filters[..n]) + {filters[n]}
  {
    assert filters == filters[..n] + [filters[n]];
  }

  function WithFilters(l: Link, filters: seq<string>, rest: seq<Packet>): Link
    requires l.session.Open?
  {
    l.(client := l.client.(wire := rest), session := l.session.(subs := l.session.subs + (set f | f in filters)))
  }

  lemma TakeSubscription(h: HandOn, l: Link, r: Retained, filters: seq<string>, n: nat, qos: nat, rest: seq<Packet>)
    requires l.session.Open? && |filters| == n + 1
    ensures Act(h, WithFilters(l, filters[..n], [Packet.Subscribe(filters[n], qos)] + rest), r, Take) ==
            (WithFilters(l, filters, rest), r)
  {
    assert ([Packet.Subscribe(filters[n], qos)] + rest)[1..] == rest;
    FiltersOfSnoc(l.session.subs, filters, n);
  }

  /** The broker takes the subscriptions that stand at the front of the wire. */
  lemma {:induction false} TakeSubscriptions(h: HandOn, l: Link, r: Retained, filters: seq<string>, qos: nat,
          rest: seq<Packet>)
    requires l.session.Open? && l.client.wire == SubscribePackets(filters, qos) + rest
    ensures LinkAfter(h, l, r, Takes(|filters|)) == (WithFilters(l, filters, rest), r)
  {
    if filters == [] {
      assert SubscribePackets(filters, qos) + rest == rest;
      assert l.session.subs + (set f | f in filters) == l.session.subs;
    } else {
      var n := |filters| - 1;
      var last := Packet.Subscribe(filters[n], qos);
      assert SubscribePackets(filters, qos) + rest == SubscribePackets(filters[..n], qos) + ([last] + rest);
      TakeSubscriptions(h, l, r, filters[..n], qos, [last] + rest);
      assert Takes(|filters|)[..n] == Takes(n);
      TakeSubscription(h, l, r, filters, n, qos, rest);
    }
  }

  /** Up to the announcement, which is then the only packet on the wire. */
  function Announced(filters: seq<string>): seq<Action> {
    [OnConnect(0)] + Takes(|filters|)
  }

  lemma AnnouncedLink(h: HandOn, l: Link, r: Retained)
    requires !l.gone && l.client.handle.Some? && l.client.up && l.client.wire == [] && l.session.Open?
    requires PublishableTopic(l.client.cfg.willTopic)
    ensures var cfg := l.client.cfg;
            var (after, kept) := LinkAfter(h, l, r, Announced(cfg.subTopicList));
            var announcement := Publish(cfg.willTopic, Status("available"), true, cfg.willQos);
            kept == r && after == WithFilters(l.(client := l.client.(connected := true)), cfg.subTopicList,
                [announcement])
  {
    var cfg := l.client.cfg;
    var last := Publish(cfg.willTopic, Status("available"), true, cfg.willQos);
    var (l1, r1) := Act(h, l, r, OnConnect(0));
    assert [OnConnect(0)][..0] == [];
    assert LinkAfter(h, l, r, [OnConnect(0)]) == (l1, r1);
    assert l1.client.wire == SubscribePackets(cfg.subTopicList, cfg.qos) + [last];
    LinkAfterConcat(h, l, r, [OnConnect(0)], Takes(|cfg.subTopicList|));
    TakeSubscriptions(h, l1, r1, cfg.subTopicList, cfg.qos, [last]);
  }

  lemma AfterTwo(h: HandOn, l: Link, r: Retained, a: Action, b: Action)
    ensures var (l1, r1) := Act(h, l, r, a);
            LinkAfter(h, l, r, [a, b]) == Act(h, l1, r1, b)
  {
    assert [a, b][..1] == [a] && [a][..0] == [];
    assert LinkAfter(h, l, r, [a]) == Act(h, l, r, a);
  }

  /** The start of every connection. */
  lemma OpenedLink(h: HandOn, l: Link, r: Retained)
    requires !l.gone && l.client.handle.None? && !l.client.up && l.session.Closed?
    ensures LinkAfter(h, l, r, [Init(true), Accept]) ==
            (Link(l.client.(handle := Some(WillFor(l.client.cfg)), up := true, wire := []),
                  Open(WillFor(l.client.cfg), {}, []), false), r)
  {
    AfterTwo(h, l, r, Init(true), Accept);
  }

  // ---------------------------------------------------- the two ways it fails

  lemma WillLeftBehind(h: HandOn, l: Link, r: Retained)
    requires !l.gone && l.client.handle.None? && !l.client.up && l.session.Closed?
    requires l.client.cfg.willPayload == "available"
    ensures var (after, kept) := LinkAfter(h, l, r, [Init(true), Accept] + [Lose]);
            after.session.Closed? && Says(kept, l.client.cfg.willTopic, "available")
  {
    OpenedLink(h, l, r);
    LinkAfterConcat(h, l, r, [Init(true), Accept], [Lose]);
    assert [Lose][..0] == [];
    assert "available" != "";
  }

  lemma AfterThree(h: HandOn, l: Link, r: Retained, a: Action, b: Action, c: Action)
    ensures var (l1, r1) := Act(h, l, r, a);
            var (l2, r2) := Act(h, l1, r1, b);
            LinkAfter(h, l, r, [a, b, c]) == Act(h, l2, r2, c)
  {
    assert [a, b, c][..2] == [a, b];
    AfterTwo(h, l, r, a, b);
  }

  /** At a broker that waits for the release: taken, acknowledged and released. */
  const RELEASED: seq<Action> := [Take, Acknowledge, Take]

  /** Closed by the user before the farewell can be released. */
  const CLOSED: seq<Action> := [UserDisconnect, Take, Take]

  lemma StatusReleased(l: Link, r: Retained, topic: string, text: string)
    requires !l.gone && l.client.handle.Some? && l.client.up && l.session.Open? && l.session.held == []
    requires l.client.wire == [Publish(topic, Status(text), true, 2)]
    ensures LinkAfter(AtRelease, l, r, RELEASED) == (l.(client := l.client.(wire := [])), Retain(r, topic, text))
  {
    AfterThree(AtRelease, l, r, Take, Acknowledge, Take);
    var (l1, r1) := Act(AtRelease, l, r, Take);
    assert l1.client.wire == [] && l1.session.held == [Stored(topic, text)];
    var (l2, r2) := Act(AtRelease, l1, r1, Acknowledge);
    assert l2.client.wire == [Release] && [Release][1..] == [];
    assert l2.session.held[1..] == [] && l2.client.(wire := []) == l.client.(wire := []);
  }

  lemma FarewellNotRetained(l: Link, r: Retained)
    requires !l.gone && l.client.handle.Some? && l.client.up && l.session.Open?
    requires l.client.cfg.willQos == 2 && PublishableTopic(l.client.cfg.willTopic) && l.client.wire == []
    ensures var (after, kept) := LinkAfter(AtRelease, l, r, CLOSED);
            after.session.Closed? && kept == r
  {
    AfterThree(AtRelease, l, r, UserDisconnect, Take, Take);
    var (l1, r1) := Act(AtRelease, l, r, UserDisconnect);
    var cfg := l.client.cfg;
    assert l1.client.wire == [Publish(cfg.willTopic, Status(cfg.willPayload), true, 2), Packet.Disconnect];
    var (l2, r2) := Act(AtRelease, l1, r1, Take);
    assert l2.client.wire == [Packet.Disconnect] && r2 == r;
  }

  /** A whole run of the root client that loses the farewell. */
  function LateRun(conf: Config): seq<Action> {
    [Init(true), Accept] + (Announced(BaseClient(conf).cfg.subTopicList) + (RELEASED + CLOSED))
  }

  lemma LateRunGoesStale(conf: Config, r: Retained)
    requires StatusNames(conf) && conf.willQos == 2
    ensures var (after, kept) := LinkAfter(AtRelease, Link(BaseClient(conf), Closed, false), r, LateRun(conf));
            after.session.Closed? && Says(kept, BaseClient(conf).cfg.willTopic, "available")
  {
    var h, l, filters := AtRelease, Link(BaseClient(conf), Closed, false), BaseClient(conf).cfg.subTopicList;
    OpenedLink(h, l, r);
    LinkAfterConcat(h, l, r, [Init(true), Accept], Announced(filters) + (RELEASED + CLOSED));
    var (l1, r1) := LinkAfter(h, l, r, [Init(true), Accept]);
    AnnouncedLink(h, l1, r1);
    LinkAfterConcat(h, l1, r1, Announced(filters), RELEASED + CLOSED);
    var (l2, r2) := LinkAfter(h, l1, r1, Announced(filters));
    StatusReleased(l2, r2, BaseClient(conf).cfg.willTopic, "available");
    LinkAfterConcat(h, l2, r2, RELEASED, CLOSED);
    var (l3, r3) := LinkAfter(h, l2, r2, RELEASED);
    FarewellNotRetained(l3, r3);
    assert "available" != "";
  }

  /** A run of the root client alone that ends with a stale status. */
  ghost predicate GoesStale(h: HandOn, conf: Config, plugins: map<string, PluginDetails>, actions: seq<Action>)
    requires conf.prefix != ""
  {
    var events := EventsOf(conf.prefix, actions);
    && Orderly(h, conf, plugins, events)
    && !NotStale(conf, plugins, NetAfter(h, InitialNet(conf, plugins), events), conf.prefix)
  }

  lemma StaleRun(h: HandOn, conf: Config, plugins: map<string, PluginDetails>, actions: seq<Action>)
    requires conf.prefix != "" && forall a <- actions :: !a.SetListener?
    requires var (after, kept) := LinkAfter(h, Link(BaseClient(conf), Closed, false), map[], actions);
             after.session.Closed? && Says(kept, BaseClient(conf).cfg.willTopic, "available")
    ensures GoesStale(h, conf, plugins, actions)
  {
    RootRunsAreOrderly(h, conf, plugins, actions);
    RunOfOne(h, InitialNet(conf, plugins), conf.prefix, actions);
  }

  lemma UnsafeGoesStale(h: HandOn, conf: Config, plugins: map<string, PluginDetails>) returns (actions: seq<Action>)
    requires StatusNames(conf) && !StatusConf(h, conf)
    ensures GoesStale(h, conf, plugins, actions)
  {
    if conf.willPayload == "available" {
      actions := [Init(true), Accept] + [Lose];
      WillLeftBehind(h, Link(BaseClient(conf), Closed, false), map[]);
    } else {
      actions := LateRun(conf);
      LateRunGoesStale(conf, map[]);
    }
    StaleRun(h, conf, plugins, actions);
  }

  ghost predicate NeverStale(h: HandOn, conf: Config, plugins: map<string, PluginDetails>, events: seq<Event>)
    requires conf.prefix != ""
  {
    forall id :: id in plugins.Keys + {conf.prefix} ==>
      NotStale(conf, plugins, NetAfter(h, InitialNet(conf, plugins), events), id)
  }

  /** The guarantee holds for every orderly run exactly when the will does not say "available"
      and the broker does not keep a status message of quality 2 for its release. */
  lemma NoStalePresenceExactly(h: HandOn, conf: Config, plugins: map<string, PluginDetails>)
    requires StatusNames(conf) && GoodPlugins(conf, plugins)
    ensures conf.willPayload != "available" && Prompt(h, conf.willQos) <==>
              forall events :: Orderly(h, conf, plugins, events) ==> NeverStale(h, conf, plugins, events)
  {
    if StatusConf(h, conf) {
      forall events | Orderly(h, conf, plugins, events) ensures NeverStale(h, conf, plugins, events) {
        forall id | id in plugins.Keys + {conf.prefix}
          ensures NotStale(conf, plugins, NetAfter(h, InitialNet(conf, plugins), events), id)
        {
          NoStalePresence(h, conf, plugins, events, id);
        }
      }
    } else {
      var actions := UnsafeGoesStale(h, conf, plugins);
      var events := EventsOf(conf.prefix, actions);
      assert Orderly(h, conf, plugins, events);
      assert conf.prefix in plugins.Keys + {conf.prefix} && !NeverStale(h, conf, plugins, events);
    }
  }

  /** Why the order matters: a client that is attached after it was initialised announces
      itself under a topic that its will does not name, and stays "available" there. */
  lemma LateListenerGoesStale(h: HandOn, conf: Config, d: PluginDetails, r: Retained)
    requires StatusNames(conf) && WildFree(d.className) && d.className != conf.prefix && Prompt(h, conf.willQos)
    ensures var actions := [Init(true), Accept] + ([SetListener(d)] + (Announced(AttachedConfig(conf,
        d).subTopicList) + [Take, Lose]));
            var (after, kept) := LinkAfter(h, Link(BaseClient(conf), Closed, false), r, actions);
            after.session.Closed? && Says(kept, AttachedConfig(conf, d).willTopic, "available")
  {
    var l, filters := Link(BaseClient(conf), Closed, false), AttachedConfig(conf, d).subTopicList;
    var tail := Announced(filters) + [Take, Lose];
    OpenedLink(h, l, r);
    LinkAfterConcat(h, l, r, [Init(true), Accept], [SetListener(d)] + tail);
    var (l1, r1) := LinkAfter(h, l, r, [Init(true), Accept]);
    LinkAfterConcat(h, l1, r1, [SetListener(d)], tail);
    assert [SetListener(d)][..0] == [];
    var (l2, r2) := LinkAfter(h, l1, r1, [SetListener(d)]);
    assert l2.client.cfg == AttachedConfig(conf, d);
    StatusTopicPublishable(conf, map[d.className := d], d.className);
    AnnouncedLink(h, l2, r2);
    LinkAfterConcat(h, l2, r2, Announced(filters), [Take, Lose]);
    var (l3, r3) := LinkAfter(h, l2, r2, Announced(filters));
    AfterTwo(h, l3, r3, Take, Lose);
    RootTopicDiffers(conf, d);
    assert "available" != "";
  }

  // ------------------------------------------ what a quiet connection settles on

  /** The broker takes everything that is on the wire, and what it then holds is released. */
  function Settle(h: HandOn, l: Link, r: Retained): (Link, Retained)
    decreases if l.session.Open? then 3 * |l.client.wire| + 2 * |l.session.held| else 0
  {
    if l.session.Closed? then (l, r)
    else if l.client.wire != [] then
      var (l', r') := TakePacket(h, l, r);
      Settle(h, l', r')
    else if l.session.held != [] && l.client.up && l.client.handle.Some? then
      var (l', r') := TakePacket(h, l.(client := AfterAcknowledge(l)), r);
      Settle(h, l', r')
    else (l, r)
  }

  lemma {:induction false} SettleSubscribes(h: HandOn, l: Link, r: Retained, filters: seq<string>, qos: nat,
          last: Packet)
    requires l.session.Open? && l.client.wire == SubscribePackets(filters, qos) + [last]
    ensures Settle(h, l, r) ==
            Settle(h, l.(client := l.client.(wire := [last]),
                         session := l.session.(subs := l.session.subs + (set f | f in filters))), r)
    decreases |filters|
  {
    if filters == [] {
      assert l.client.wire == [last];
      assert l.session.subs + (set f | f in filters) == l.session.subs;
    } else {
      var (l1, r1) := TakePacket(h, l, r);
      assert l1.client.wire == SubscribePackets(filters[1..], qos) + [last];
      SettleSubscribes(h, l1, r1, filters[1..], qos, last);
      assert l1.session.subs + (set f | f in filters[1..]) == l.session.subs + (set f | f in filters);
    }
  }

  /** A status message that is alone on the wire ends as the retained one, at either broker. */
  lemma SettleStatus(h: HandOn, l: Link, r: Retained, topic: string, text: string, qos: nat)
    requires l.session.Open? && l.session.held == [] && l.client.up && l.client.handle.Some?
    requires l.client.wire == [Publish(topic, Status(text), true, qos)]
    ensures Settle(h, l, r) == (l.(client := l.client.(wire := [])), Retain(r, topic, text))
  {
    var (l1, r1) := TakePacket(h, l, r);
    assert l1.client.wire == [];
    if !Prompt(h, qos) {
      assert l1.session.held == [Stored(topic, text)];
      var (l2, r2) := TakePacket(h, l1.(client := AfterAcknowledge(l1)), r1);
      assert AfterAcknowledge(l1).wire == [Release] && [Release][1..] == [];
      assert Settle(h, l2, r2) == (l2, r2);
    }
  }

  /** The stored messages become the retained ones in the order in which they were stored. */
  function RetainAll(r: Retained, held: seq<Stored>): Retained {
    if held == [] then r
    else
      var last := held[|held| - 1];
      Retain(RetainAll(r, held[..|held| - 1]), last.topic, last.text)
  }

  lemma {:induction false} RetainFirst(r: Retained, held: seq<Stored>)
    requires held != []
    ensures RetainAll(r, held) == RetainAll(Retain(r, held[0].topic, held[0].text), held[1..])
  {
    var n := |held| - 1;
    if n == 0 {
      assert RetainAll(r, held[..0]) == r && held[1..] == [];
    } else {
      RetainFirst(r, held[..n]);
      assert held[..n][1..] == held[1..][..n - 1] && held[1..][n - 1] == held[n];
    }
  }

  /** Whatever the broker has stored is retained once the wire is empty and all is released:
      of several status messages the last one counts. */
  lemma {:induction false} SettleReleases(h: HandOn, l: Link, r: Retained)
    requires l.session.Open? && l.client.wire == [] && l.client.up && l.client.handle.Some?
    ensures Settle(h, l, r) == (l.(session := l.session.(held := [])), RetainAll(r, l.session.held))
    decreases |l.session.held|
  {
    var held := l.session.held;
    if held != [] {
      var asked := l.(client := AfterAcknowledge(l));
      assert asked.client.wire == [Release] && [Release][1..] == [];
      var rest := l.(session := l.session.(held := held[1..]));
      assert TakePacket(h, asked, r) == (rest, Retain(r, held[0].topic, held[0].text));
      assert Settle(h, l, r) == Settle(h, rest, Retain(r, held[0].topic, held[0].text)) by {
        assert l.session.held != [] && l.client.wire == [];
      }
      SettleReleases(h, rest, Retain(r, held[0].topic, held[0].text));
      RetainFirst(r, held);
    }
  }

  /** A client that connects again before the broker has seen its old connection end: the old
      will is published, and the new session starts afresh with the will of the handle. */
  lemma TakeOver(h: HandOn, l: Link, r: Retained)
    requires !l.gone && l.client.handle.Some? && !l.client.up && l.session.Open?
    ensures var (after, kept) := Act(h, l, r, Accept);
            && after.session == Open(l.client.handle.value, {}, []) && after.client.up && after.client.wire == []
            && kept == Retain(r, l.session.will.topic, l.session.will.payload)
  {
  }

  /** What the library repeats is one of the client's two status messages. */
  lemma RepeatedStatus(h: HandOn, l: Link, r: Retained, available: bool)
    requires !l.gone && l.client.handle.Some? && l.client.up && PublishableTopic(l.client.cfg.willTopic)
    ensures var cfg := l.client.cfg;
            var text := if available then "available" else cfg.willPayload;
            Act(h, l, r, Repeat(available)) ==
            (l.(client := l.client.(wire := l.client.wire + [Publish(cfg.willTopic, Status(text), true, cfg.willQos)])),
             r)
  {
  }

  /** After a good connect callback on a fresh connection the broker keeps "available" and
      holds a subscription for each of the client's filters. */
  lemma ConnectAnnounces(h: HandOn, l: Link, r: Retained)
    requires !l.gone && l.client.handle.Some? && l.client.up && l.client.wire == []
    requires l.session.Open? && l.session.subs == {} && l.session.held == []
    requires PublishableTopic(l.client.cfg.willTopic)
    ensures var (l1, r1) := Act(h, l, r, OnConnect(0));
            var (l', r') := Settle(h, l1, r1);
            && r' == Retain(r, l.client.cfg.willTopic, "available")
            && Says(r', l.client.cfg.willTopic, "available")
            && l'.session == Open(l.session.will, set f | f in l.client.cfg.subTopicList, [])
  {
    var cfg := l.client.cfg;
    var (l1, r1) := Act(h, l, r, OnConnect(0));
    var last := Publish(cfg.willTopic, Status("available"), true, cfg.willQos);
    assert l1.client.wire == SubscribePackets(cfg.subTopicList, cfg.qos) + [last];
    SettleSubscribes(h, l1, r1, cfg.subTopicList, cfg.qos, last);
    var subs := set f | f in cfg.subTopicList;
    assert {} + subs == subs;
    SettleStatus(h, l1.(client := l1.client.(wire := [last]), session := l1.session.(subs := subs)), r1,
                 cfg.willTopic, "available", cfg.willQos);
    assert "available" != "";
  }

  /** After a user disconnect the session ends without the will. The farewell is then the
      retained status exactly if the broker does not wait for its release. */
  lemma DisconnectSaysGoodbye(h: HandOn, l: Link, r: Retained)
    requires !l.gone && l.client.handle.Some? && l.client.up && l.client.wire == []
    requires l.session.Open? && l.session.held == [] && PublishableTopic(l.client.cfg.willTopic)
    ensures var (l1, r1) := Act(h, l, r, UserDisconnect);
            var (l', r') := Settle(h, l1, r1);
            var cfg := l.client.cfg;
            && l'.session.Closed? && l'.client.wire == []
            && r' == if Prompt(h, cfg.willQos) then Retain(r, cfg.willTopic, cfg.willPayload) else r
  {
    var cfg := l.client.cfg;
    var (l1, r1) := Act(h, l, r, UserDisconnect);
    assert l1.client.wire == [Publish(cfg.willTopic, Status(cfg.willPayload), true, cfg.willQos), Packet.Disconnect];
    var (l2, r2) := TakePacket(h, l1, r1);
    assert l2.client.wire == [Packet.Disconnect];
    var (l3, r3) := TakePacket(h, l2, r2);
    assert Settle(h, l3, r3) == (l3, r3);
  }
}
