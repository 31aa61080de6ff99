/** The bus client and the bus: the fields they change and the packets they hand to the
    messaging library, first as functions on values, then as the classes themselves.

    `wire` holds the packets written on the current connection, oldest first. `up` says
    that the library has a connection it may write on. A publish whose topic holds a
    wildcard is refused by the library and leaves no packet.
  */
module BusModel {
  import opened Options
  import opened Topics
  import opened Replacement

  datatype IBPayload = IBPayload(ptype: string, value: string, cvalue: string, content: string)
  datatype IBMessage = IBMessage(id: string, payload: IBPayload, reference: string)

  datatype PluginDetails = PluginDetails(kind: Option<string>, className: string, pluginName: string)

  datatype Config = Config(
    prefix: string,
    id: string,
    willTopic: string,
    willPayload: string,
    commandTopic: string,
    occurrenceTopic: string,
    qos: nat,
    willQos: nat,
    subTopicList: seq<string>)

  datatype Will = Will(topic: string, payload: string, qos: nat)
  datatype Body = Bus(msg: IBMessage) | Status(text: string)
  datatype Packet =
    | Subscribe(filter: string, qos: nat)
    | Publish(topic: string, body: Body, retain: bool, qos: nat)
    /** PUBREL: the library's answer once the broker has a publish of quality 2. */
    | Release
    | Disconnect

  datatype Client = Client(
    cfg: Config,
    listener: Option<PluginDetails>,
    handle: Option<Will>,
    up: bool,
    connected: bool,
    byUser: bool,
    wire: seq<Packet>)

  predicate IsDevice(d: PluginDetails) {
    d.kind == Some("device")
  }

  predicate IsComm(d: PluginDetails) {
    d.kind == Some("comm")
  }

  // ------------------------------------------------------ topics and filters

  function CommandTopic(cfg: Config, target: string): string {
    cfg.prefix + "/" + target + "/" + cfg.commandTopic
  }

  function EventTopic(cfg: Config, sender: string): string {
    var own := cfg.prefix + "/" + cfg.id;
    (if sender == "" then own else own + "/" + sender) + "/" + cfg.occurrenceTopic
  }

  function DeviceFilters(cfg: Config): seq<string> {
    [cfg.prefix + "/" + cfg.id + "/" + cfg.commandTopic,
     cfg.prefix + "/" + cfg.id + "/+/" + cfg.commandTopic]
  }

  function CommFilters(cfg: Config): seq<string> {
    [cfg.prefix + "/+/" + cfg.occurrenceTopic,
     cfg.prefix + "/+/+/" + cfg.occurrenceTopic]
  }

  function RootFilters(cfg: Config): seq<string> {
    [cfg.prefix + "/" + cfg.occurrenceTopic,
     cfg.prefix + "/" + cfg.commandTopic]
  }

  function FiltersFor(cfg: Config, listener: Option<PluginDetails>): seq<string> {
    if cfg.id == cfg.prefix then cfg.subTopicList + RootFilters(cfg)
    else match listener {
      case None => cfg.subTopicList
      case Some(d) =>
        if IsDevice(d) then DeviceFilters(cfg)
        else if IsComm(d) then CommFilters(cfg)
        else []
    }
  }

  // ------------------------------------------------------ the client's calls

  function PublishPackets(topic: string, body: Body, retain: bool, qos: nat): seq<Packet> {
    if PublishableTopic(topic) then [Publish(topic, body, retain, qos)] else []
  }

  /** A bus message is never retained. */
  function BusPackets(cfg: Config, topic: string, msg: IBMessage): seq<Packet> {
    PublishPackets(topic, Bus(msg), false, cfg.qos)
  }

  function SubscribePackets(filters: seq<string>, qos: nat): seq<Packet> {
    seq(|filters|, i requires 0 <= i < |filters| => Subscribe(filters[i], qos))
  }

  /** One command to every listed client but the sender. */
  function BroadcastPackets(cfg: Config, msg: IBMessage, names: seq<string>): seq<Packet> {
    if names == [] then []
    else
      (if names[0] != cfg.id then BusPackets(cfg, CommandTopic(cfg, names[0]), msg) else [])
      + BroadcastPackets(cfg, msg, names[1..])
  }

  function CommandPackets(c: Client, msg: IBMessage, target: string, names: seq<string>): seq<Packet> {
    if c.listener.None? || !IsComm(c.listener.value) then []
    else if target != "" then BusPackets(c.cfg, CommandTopic(c.cfg, target), msg)
    else BroadcastPackets(c.cfg, msg, names)
  }

  function EventPackets(c: Client, msg: IBMessage, target: string): seq<Packet> {
    if c.listener.None? then []
    else if IsDevice(c.listener.value) then BusPackets(c.cfg, EventTopic(c.cfg, target), msg)
    else if IsComm(c.listener.value) then BusPackets(c.cfg, EventTopic(c.cfg, ""), msg)
    else []
  }

  /** What `sendMessage` publishes: nothing for a payload that is neither command nor event. */
  function MessagePackets(c: Client, msg: IBMessage, target: string, names: seq<string>): seq<Packet> {
    if msg.payload.ptype == "command" then CommandPackets(c, msg, target, names)
    else if msg.payload.ptype == "event" then EventPackets(c, msg, target)
    else []
  }

  function Write(c: Client, packets: seq<Packet>): Client {
    if c.handle.Some? && c.up then c.(wire := c.wire + packets) else c
  }

  function AfterSendMessage(c: Client, msg: IBMessage, target: string, names: seq<string>): Client {
    Write(c, MessagePackets(c, msg, target, names))
  }

  function StatusPackets(c: Client, status: string): seq<Packet> {
    PublishPackets(c.cfg.willTopic, Status(status), true, c.cfg.willQos)
  }

  function AfterSetConfig(c: Client, conf: Config): Client {
    var cfg := conf.(id := conf.prefix, willTopic := conf.prefix + "/" + conf.willTopic);
    c.(cfg := cfg.(subTopicList := FiltersFor(cfg, c.listener)))
  }

  /** The replacement asserts that its pattern is not empty. */
  function AfterSetListener(c: Client, d: PluginDetails): Client
    requires c.cfg.prefix != ""
  {
    var cfg := c.cfg.(id := d.className);
    var filters := FiltersFor(cfg, Some(d));
    c.(listener := Some(d),
       cfg := cfg.(subTopicList := filters,
                   willTopic := Replace(cfg.willTopic, cfg.prefix, cfg.prefix + "/" + cfg.id)))
  }

  function WillFor(cfg: Config): Will {
    Will(cfg.willTopic, cfg.willPayload, cfg.willQos)
  }

  function AfterInit(c: Client, created: bool): Client {
    c.(handle := if created then Some(WillFor(c.cfg)) else None,
       up := false)
  }

  function AfterDisconnect(c: Client): Client {
    var said := Write(c, StatusPackets(c, c.cfg.willPayload) + [Disconnect]);
    said.(up := false, byUser := true, connected := false)
  }

  function AfterFree(c: Client): Client {
    var closed := if c.connected then AfterDisconnect(c) else c;
    if closed.handle.Some? then closed.(handle := None, up := false) else closed
  }

  function AfterOnConnect(c: Client, rc: int): Client {
    if rc == 0 then
      Write(c, SubscribePackets(c.cfg.subTopicList, c.cfg.qos) + StatusPackets(c, "available")).(connected := true)
    else
      c.(connected := false)
  }

  function AfterOnDisconnect(c: Client): Client {
    c.(connected := false, up := false)
  }

  function RemoveAll(names: seq<string>, name: string): seq<string> {
    if names == [] then []
    else if names[0] == name then RemoveAll(names[1..], name)
    else [names[0]] + RemoveAll(names[1..], name)
  }

  /** What stays keeps its order: removal works on the parts of a list one behind the other. */
  lemma {:induction false} RemoveAllOfConcat(a: seq<string>, b: seq<string>, name: string)
    ensures RemoveAll(a + b, name) == RemoveAll(a, name) + RemoveAll(b, name)
  {
    if a == [] {
      assert a + b == b;
    } else {
      assert (a + b)[1..] == a[1..] + b;
      RemoveAllOfConcat(a[1..], b, name);
    }
  }

  /** Of a single name. */
  lemma RemoveAllOfOne(x: string, name: string)
    ensures RemoveAll([x], name) == if x == name then [] else [x]
  {
    assert [x][1..] == [];
  }

  // ----------------------------------------------------------------- classes

  class InnerBus {
    var defaultConf: Config
    var clientsList: seq<string>

    constructor (conf: Config)
      ensures defaultConf == conf && clientsList == []
    {
      defaultConf := conf;
      clientsList := [];
    }

    method SetRoot(serial: string)
      modifies this`defaultConf
      ensures defaultConf == old(defaultConf).(prefix := serial)
    {
      defaultConf := defaultConf.(prefix := serial);
    }

    method CreateIBusClient() returns (client: InnerBusClient)
      ensures fresh(client) && client.bus == this
      ensures client.View() == AfterSetConfig(NewClient(defaultConf), defaultConf)
      ensures client.cfg.id == defaultConf.prefix && client.callbackObj.None? && client.handle.None?
      ensures client.wire == [] && !client.up && !client.connected && !client.disconnectedByUser
    {
      client := new InnerBusClient(this);
      client.SetConfig(defaultConf);
    }

    method AddClientToList(name: string)
      modifies this`clientsList
      ensures clientsList == old(clientsList) + [name]
    {
      clientsList := clientsList + [name];
    }

    method DelClientFromList(name: string)
      modifies this`clientsList
      ensures clientsList == RemoveAll(old(clientsList), name)
    {
      var kept, i := [], 0;
      assert clientsList[0..] == clientsList;
      while i < |clientsList|
        invariant 0 <= i <= |clientsList|
        invariant clientsList == old(clientsList)
        invariant kept + RemoveAll(clientsList[i..], name) == RemoveAll(clientsList, name)
      {
        assert clientsList[i..][1..] == clientsList[i + 1..];
        if clientsList[i] != name {
          kept := kept + [clientsList[i]];
        }
        i := i + 1;
      }
      assert clientsList[i..] == [];
      clientsList := kept;
    }
  }

  function NewClient(cfg: Config): Client {
    Client(cfg, None, None, false, false, false, [])
  }

  class InnerBusClient {
    const bus: InnerBus
    var cfg: Config
    var callbackObj: Option<PluginDetails>
    var handle: Option<Will>
    var up: bool
    var connected: bool
    var disconnectedByUser: bool
    var wire: seq<Packet>

    function View(): Client
      reads this
    {
      Client(cfg, callbackObj, handle, up, connected, disconnectedByUser, wire)
    }

    constructor (bus: InnerBus)
      ensures this.bus == bus && View() == NewClient(bus.defaultConf)
      ensures cfg == bus.defaultConf && callbackObj.None? && handle.None? && wire == []
      ensures !up && !connected && !disconnectedByUser
    {
      this.bus := bus;
      cfg := bus.defaultConf;
      callbackObj, handle := None, None;
      up, connected, disconnectedByUser := false, false, false;
      wire := [];
    }

    /** Hands one packet to the library. */
    method Hand(packets: seq<Packet>)
      modifies this`wire
      ensures View() == Write(old(View()), packets)
      ensures wire == old(wire) + if handle.Some? && up then packets else []
    {
      if handle.Some? && up {
        wire := wire + packets;
      }
    }

    method PublishMessage(topic: string, msg: IBMessage)
      modifies this`wire
      ensures View() == Write(old(View()), BusPackets(cfg, topic, msg))
      ensures wire == old(wire)
                + if handle.Some? && up && PublishableTopic(topic) then [Publish(topic, Bus(msg), false,
                    cfg.qos)] else []
    {
      if PublishableTopic(topic) {
        Hand([Publish(topic, Bus(msg), false, cfg.qos)]);
      }
    }

    method SendStatus(status: string)
      modifies this`wire
      ensures View() == Write(old(View()), StatusPackets(old(View()), status))
      ensures wire == old(wire)
                + if handle.Some? && up && PublishableTopic(cfg.willTopic)
                  then [Publish(cfg.willTopic, Status(status), true, cfg.willQos)] else []
    {
      if PublishableTopic(cfg.willTopic) {
        Hand([Publish(cfg.willTopic, Status(status), true, cfg.willQos)]);
      }
    }

    method Subscribe()
      modifies this`wire
      ensures View() == Write(old(View()), SubscribePackets(cfg.subTopicList, cfg.qos))
      ensures !(handle.Some? && up) ==> wire == old(wire)
      ensures handle.Some? && up ==>
                && |wire| == |old(wire)| + |cfg.subTopicList| && wire[..|old(wire)|] == old(wire)
                && forall i :: 0 <= i < |cfg.subTopicList| ==>
                     wire[|old(wire)| + i] == Packet.Subscribe(cfg.subTopicList[i], cfg.qos)
    {
      var count := 0;
      while count < |cfg.subTopicList|
        invariant 0 <= count <= |cfg.subTopicList|
        invariant View() == Write(old(View()), SubscribePackets(cfg.subTopicList, cfg.qos)[..count])
      {
        Hand([Packet.Subscribe(cfg.subTopicList[count], cfg.qos)]);
        count := count + 1;
      }
    }

    method GenerateSubTopics()
      modifies this`cfg
      ensures cfg == old(cfg).(subTopicList := FiltersFor(old(cfg), callbackObj))
      ensures cfg.subTopicList ==
              if cfg.id == cfg.prefix then
                old(cfg.subTopicList) + [cfg.prefix + "/" + cfg.occurrenceTopic, cfg.prefix + "/" + cfg.commandTopic]
              else if callbackObj.None? then old(cfg.subTopicList)
              else if callbackObj.value.kind == Some("device") then
                [cfg.prefix + "/" + cfg.id + "/" + cfg.commandTopic,
                 cfg.prefix + "/" + cfg.id + "/+/" + cfg.commandTopic]
              else if callbackObj.value.kind == Some("comm") then
                [cfg.prefix + "/+/" + cfg.occurrenceTopic, cfg.prefix + "/+/+/" + cfg.occurrenceTopic]
              else []
    {
      var filters := cfg.subTopicList;
      if cfg.id == cfg.prefix {
        filters := filters + [cfg.prefix + "/" + cfg.occurrenceTopic];
        filters := filters + [cfg.prefix + "/" + cfg.commandTopic];
      } else if callbackObj.Some? {
        filters := [];
        if callbackObj.value.kind == Some("device") {
          filters := filters + [cfg.prefix + "/" + cfg.id + "/" + cfg.commandTopic];
          filters := filters + [cfg.prefix + "/" + cfg.id + "/+/" + cfg.commandTopic];
        } else if callbackObj.value.kind == Some("comm") {
          filters := filters + [cfg.prefix + "/+/" + cfg.occurrenceTopic];
          filters := filters + [cfg.prefix + "/+/+/" + cfg.occurrenceTopic];
        }
      }
      cfg := cfg.(subTopicList := filters);
    }

    method SetConfig(config: Config)
      modifies this`cfg
      ensures View() == AfterSetConfig(old(View()), config)
      ensures cfg == config.(id := config.prefix,
                             willTopic := config.prefix + "/" + config.willTopic,
                             subTopicList := config.subTopicList
                                             + [config.prefix + "/" + config.occurrenceTopic,
                                                config.prefix + "/" + config.commandTopic])
    {
      cfg := config;
      cfg := cfg.(id := cfg.prefix);
      cfg := cfg.(willTopic := cfg.prefix + "/" + cfg.willTopic);
      GenerateSubTopics();
    }

    method SetListener(details: PluginDetails)
      requires cfg.prefix != ""
      modifies this`callbackObj, this`cfg, bus`clientsList
      ensures View() == AfterSetListener(old(View()), details)
      ensures callbackObj == Some(details)
      ensures cfg == old(cfg).(
                id := details.className,
                subTopicList := FiltersFor(old(cfg).(id := details.className), Some(details)),
                willTopic := Replace(old(cfg).willTopic, cfg.prefix, cfg.prefix + "/" + details.className))
      ensures bus.clientsList == old(bus.clientsList) + [details.className]
    {
      callbackObj := Some(details);
      cfg := cfg.(id := details.className);
      GenerateSubTopics();
      cfg := cfg.(willTopic := Replace(cfg.willTopic, cfg.prefix, cfg.prefix + "/" + cfg.id));
      bus.AddClientToList(cfg.id);
    }

    method Init(created: bool)
      modifies this`handle, this`up
      ensures View() == AfterInit(old(View()), created)
      ensures handle == if created then Some(Will(cfg.willTopic, cfg.willPayload, cfg.willQos)) else None
      ensures !up
    {
      handle := if created then Some(WillFor(cfg)) else None;
      up := false;
    }

    method Disconnect()
      modifies this`wire, this`up, this`connected, this`disconnectedByUser
      ensures View() == AfterDisconnect(old(View()))
      ensures disconnectedByUser && !connected && !up
      ensures wire == old(wire)
                + if handle.None? || !old(up) then []
                  else if PublishableTopic(cfg.willTopic)
                  then [Publish(cfg.willTopic, Status(cfg.willPayload), true, cfg.willQos), Packet.Disconnect]
                  else [Packet.Disconnect]
    {
      disconnectedByUser := true;
      connected := false;
      SendStatus(cfg.willPayload);
      Hand([Packet.Disconnect]);
      up := false;
    }

    method Free()
      modifies this`wire, this`up, this`connected, this`disconnectedByUser, this`handle
      ensures View() == AfterFree(old(View()))
      ensures handle.None? && !connected
      ensures disconnectedByUser == (old(disconnectedByUser) || old(connected))
      ensures up == (old(up) && old(handle).None? && !old(connected))
      ensures wire == old(wire)
                + if !old(connected) || old(handle).None? || !old(up) then []
                  else if PublishableTopic(cfg.willTopic)
                  then [Publish(cfg.willTopic, Status(cfg.willPayload), true, cfg.willQos), Packet.Disconnect]
                  else [Packet.Disconnect]
    {
      if connected {
        Disconnect();
      }
      if handle.Some? {
        handle := None;
        up := false;
      }
    }

    /** The destructor: the client leaves the bus list under its current id. */
    method Destroy()
      modifies this`wire, this`up, this`connected, this`disconnectedByUser, this`handle
      modifies this`callbackObj, bus`clientsList
      ensures View() == AfterFree(old(View())).(listener := None)
      ensures callbackObj.None? && handle.None? && !connected
      ensures disconnectedByUser == (old(disconnectedByUser) || old(connected))
      ensures bus.clientsList == RemoveAll(old(bus.clientsList), old(cfg.id))
    {
      Free();
      bus.DelClientFromList(cfg.id);
      callbackObj := None;
    }

    method OnConnect(rc: int)
      modifies this`wire, this`connected
      ensures View() == AfterOnConnect(old(View()), rc)
      ensures connected <==> rc == 0
      ensures rc != 0 || handle.None? || !up ==> wire == old(wire)
      ensures rc == 0 && handle.Some? && up ==>
                wire == old(wire) + SubscribePackets(cfg.subTopicList, cfg.qos)
                        + if PublishableTopic(cfg.willTopic)
                          then [Publish(cfg.willTopic, Status("available"), true, cfg.willQos)] else []
    {
      if rc == 0 {
        connected := true;
        Subscribe();
        SendStatus("available");
      } else {
        connected := false;
      }
    }

    /** `reconnect` says whether the library is asked to connect again. */
    method OnDisconnect() returns (reconnect: bool)
      modifies this`up, this`connected
      ensures View() == AfterOnDisconnect(old(View()))
      ensures !connected && !up
      ensures reconnect <==> !disconnectedByUser
    {
      connected := false;
      up := false;
      reconnect := !disconnectedByUser;
    }

    method SendCommand(msg: IBMessage, target: string)
      modifies this`wire
      ensures View() == Write(old(View()), CommandPackets(old(View()), msg, target, bus.clientsList))
      ensures callbackObj.None? || callbackObj.value.kind != Some("comm") || handle.None? || !up ==> wire == old(wire)
      ensures callbackObj.Some? && callbackObj.value.kind == Some("comm") && handle.Some? && up ==>
                var topic := cfg.prefix + "/" + target + "/" + cfg.commandTopic;
                wire == old(wire)
                  + if target == "" then BroadcastPackets(cfg, msg, bus.clientsList)
                    else if PublishableTopic(topic) then [Publish(topic, Bus(msg), false, cfg.qos)] else []
    {
      if callbackObj.Some? && callbackObj.value.kind == Some("comm") {
        if target != "" {
          PublishMessage(cfg.prefix + "/" + target + "/" + cfg.commandTopic, msg);
        } else {
          var names := bus.clientsList;
          var i := 0;
          assert names[..0] == [];
          while i < |names|
            invariant 0 <= i <= |names|
            invariant View() == Write(old(View()), BroadcastPackets(cfg, msg, names[..i]))
          {
            BroadcastExtends(cfg, msg, names, i);
            if names[i] != cfg.id {
              PublishMessage(cfg.prefix + "/" + names[i] + "/" + cfg.commandTopic, msg);
            }
            i := i + 1;
          }
          assert names[..i] == names;
        }
      }
    }

    method SendEvent(msg: IBMessage, target: string)
      modifies this`wire
      ensures View() == Write(old(View()), EventPackets(old(View()), msg, target))
      ensures callbackObj.None? || callbackObj.value.kind !in {Some("device"), Some("comm")} || handle.None? || !up ==>
                wire == old(wire)
      ensures callbackObj.Some? && callbackObj.value.kind in {Some("device"), Some("comm")} && handle.Some? && up ==>
                var sender := if callbackObj.value.kind == Some("device") && target != "" then "/" + target else "";
                var topic := cfg.prefix + "/" + cfg.id + sender + "/" + cfg.occurrenceTopic;
                wire == old(wire) + if PublishableTopic(topic) then [Publish(topic, Bus(msg), false, cfg.qos)] else []
    {
      ghost var own := cfg.prefix + "/" + cfg.id;
      assert own + "" == own && own + ("/" + target) == own + "/" + target;
      if callbackObj.Some? {
        if callbackObj.value.kind == Some("device") {
          var topic := cfg.prefix + "/" + cfg.id;
          if target != "" {
            topic := topic + "/" + target;
          }
          topic := topic + "/" + cfg.occurrenceTopic;
          PublishMessage(topic, msg);
        }
        if callbackObj.value.kind == Some("comm") {
          PublishMessage(cfg.prefix + "/" + cfg.id + "/" + cfg.occurrenceTopic, msg);
        }
      }
    }

    method SendMessage(msg: IBMessage, target: string)
      modifies this`wire
      ensures View() == AfterSendMessage(old(View()), msg, target, bus.clientsList)
      ensures msg.payload.ptype == "command" ==>
                View() == Write(old(View()), CommandPackets(old(View()), msg, target, bus.clientsList))
      ensures msg.payload.ptype == "event" ==> View() == Write(old(View()), EventPackets(old(View()), msg, target))
      ensures msg.payload.ptype !in {"command", "event"} ==> wire == old(wire)
    {
      if msg.payload.ptype == "command" {
        SendCommand(msg, target);
      } else if msg.payload.ptype == "event" {
        SendEvent(msg, target);
      }
    }
  }

  lemma {:induction false} BroadcastOfConcat(cfg: Config, msg: IBMessage, a: seq<string>, b: seq<string>)
    ensures BroadcastPackets(cfg, msg, a + b) == BroadcastPackets(cfg, msg, a) + BroadcastPackets(cfg, msg, b)
  {
    if a == [] {
      assert a + b == b;
    } else {
      assert (a + b)[1..] == a[1..] + b;
      BroadcastOfConcat(cfg, msg, a[1..], b);
    }
  }

  /** A broadcast to one name: a command to it, and nothing to the sender itself. */
  lemma BroadcastOfOne(cfg: Config, msg: IBMessage, name: string)
    ensures var topic := cfg.prefix + "/" + name + "/" + cfg.commandTopic;
            BroadcastPackets(cfg, msg, [name]) ==
            if name != cfg.id && PublishableTopic(topic) then [Publish(topic, Bus(msg), false, cfg.qos)] else []
  {
    assert [name][1..] == [];
  }

  lemma BroadcastExtends(cfg: Config, msg: IBMessage, names: seq<string>, i: nat)
    requires i < |names|
    ensures BroadcastPackets(cfg, msg, names[..i + 1]) ==
            BroadcastPackets(cfg, msg, names[..i])
            + (if names[i] != cfg.id then BusPackets(cfg, CommandTopic(cfg, names[i]), msg) else [])
  {
    assert names[..i + 1] == names[..i] + [names[i]];
    BroadcastOfConcat(cfg, msg, names[..i], [names[i]]);
  }
}
