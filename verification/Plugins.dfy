/** What the plugins answer to a message from the bus. The text a device prints for itself
    (its JSON record) is given with the device. */
module Plugins {
  import opened Options
  import opened Topics
  import opened TopicParsing
  import opened Replacement
  import opened BusModel
  import Lifx

  /** One call of `sendMessage(msg, target)`. */
  datatype Outgoing = Outgoing(msg: IBMessage, target: string)

  datatype Device = Device(serial: string, info: string, properties: string)

  /** What the cloud connector passes on to the cloud. */
  datatype Act = Discovered(plugin: string, sensors: string) | Connected(properties: string)

  function Occurrence(id: string, success: bool, cvalue: string, content: string, reference: string): IBMessage {
    IBMessage(id, IBPayload("event", if success then "SUCCESS" else "FAILED", cvalue, content), reference)
  }

  function OutPackets(c: Client, outs: seq<Outgoing>, names: seq<string>): seq<Packet> {
    if outs == [] then []
    else
      var last := outs[|outs| - 1];
      OutPackets(c, outs[..|outs| - 1], names) + MessagePackets(c, last.msg, last.target, names)
  }

  /** The messages sent through a client, one after the other. */
  function SendAll(c: Client, outs: seq<Outgoing>, names: seq<string>): Client {
    Write(c, OutPackets(c, outs, names))
  }

  lemma MessagePacketsIgnoreWire(c: Client, packets: seq<Packet>, msg: IBMessage, target: string, names: seq<string>)
    ensures MessagePackets(Write(c, packets), msg, target, names) == MessagePackets(c, msg, target, names)
  {
  }

  lemma WriteTwice(c: Client, a: seq<Packet>, b: seq<Packet>)
    ensures Write(Write(c, a), b) == Write(c, a + b)
  {
    assert c.wire + a + b == c.wire + (a + b);
  }

  lemma SendOneMore(c: Client, outs: seq<Outgoing>, o: Outgoing, names: seq<string>)
    ensures SendAll(c, outs + [o], names) == AfterSendMessage(SendAll(c, outs, names), o.msg, o.target, names)
  {
    assert (outs + [o])[..|outs|] == outs;
    var packets := OutPackets(c, outs, names);
    MessagePacketsIgnoreWire(c, packets, o.msg, o.target, names);
    WriteTwice(c, packets, MessagePackets(c, o.msg, o.target, names));
  }

  // ------------------------------------------------------------ fake devices

  function EscapeQuotes(text: string): string {
    Replace(Replace(text, "\"", "*"), "*", "\\\"")
  }

  /** The listed devices' records with a separator between them. */
  function Listing(devices: seq<Device>, separator: string): string {
    if devices == [] then ""
    else
      var before := Listing(devices[..|devices| - 1], separator);
      (if |before| != 0 then before + separator else before) + devices[|devices| - 1].info
  }

  /** Every quote ends as a backslash and a quote, and so does every asterisk, which the two
      replacements use on the way. */
  function EscapedChar(c: char): string {
    if c == '"' || c == '*' then "\\\"" else [c]
  }

  lemma ReplaceOneChar(c: char, rest: string, from: char, to: string)
    ensures Replace([c] + rest, [from], to) == (if c == from then to else [c]) + Replace(rest, [from], to)
  {
    var s := [c] + rest;
    assert s[..1] == [c] && s[1..] == rest;
  }

  /** Character by character. */
  lemma EscapeQuotesChars(c: char, rest: string)
    ensures EscapeQuotes("") == ""
    ensures EscapeQuotes([c] + rest) == EscapedChar(c) + EscapeQuotes(rest)
  {
    ReplaceOneChar(c, rest, '"', "*");
    ReplaceOneChar(if c == '"' then '*' else c, Replace(rest, "\"", "*"), '*', "\\\"");
    assert "\"" == ['"'] && "*" == ['*'];
  }

  function JoinWith(texts: seq<string>, separator: string): string {
    if texts == [] then ""
    else if |texts| == 1 then texts[0]
    else texts[0] + separator + JoinWith(texts[1..], separator)
  }

  function SkipEmpty(texts: seq<string>): seq<string> {
    if texts != [] && texts[0] == "" then SkipEmpty(texts[1..]) else texts
  }

  function Infos(devices: seq<Device>): seq<string> {
    seq(|devices|, i requires 0 <= i < |devices| => devices[i].info)
  }

  lemma JoinWithCons(first: string, rest: seq<string>, separator: string)
    requires rest != []
    ensures JoinWith([first] + rest, separator) == first + separator + JoinWith(rest, separator)
  {
    assert ([first] + rest)[1..] == rest;
  }

  lemma {:induction false} JoinWithSnoc(texts: seq<string>, last: string, separator: string)
    requires texts != []
    ensures JoinWith(texts + [last], separator) == JoinWith(texts, separator) + separator + last
  {
    if |texts| == 1 {
      JoinWithCons(texts[0], [last], separator);
      assert texts == [texts[0]];
    } else {
      var first, rest := texts[0], texts[1..];
      JoinWithSnoc(rest, last, separator);
      JoinWithCons(first, rest + [last], separator);
      assert texts + [last] == [first] + (rest + [last]);
      Reassociate(first + separator, JoinWith(rest, separator), separator + last);
      assert JoinWith(rest, separator) + separator + last == JoinWith(rest, separator) + (separator + last);
    }
  }

  lemma Reassociate(a: string, b: string, c: string)
    ensures a + (b + c) == a + b + c
  {
  }

  lemma {:induction false} SkipEmptySnoc(texts: seq<string>, last: string)
    ensures SkipEmpty(texts + [last]) == if SkipEmpty(texts) == [] then SkipEmpty([last]) else SkipEmpty(texts) + [last]
    ensures SkipEmpty(texts) != [] ==> SkipEmpty(texts)[0] != ""
  {
    if texts != [] {
      SkipEmptySnoc(texts[1..], last);
      assert (texts + [last])[1..] == texts[1..] + [last];
    } else {
      assert texts + [last] == [last];
    }
  }

  /** The listing is the records put together with separators between them; only empty records
      at the front leave no trace. */
  lemma {:induction false} ListingMeaning(devices: seq<Device>, separator: string)
    ensures Listing(devices, separator) == JoinWith(SkipEmpty(Infos(devices)), separator)
  {
    if devices != [] {
      var front, last := devices[..|devices| - 1], devices[|devices| - 1].info;
      var kept := SkipEmpty(Infos(front));
      ListingMeaning(front, separator);
      assert Infos(devices) == Infos(front) + [last];
      SkipEmptySnoc(Infos(front), last);
      if kept != [] {
        JoinWithSnoc(kept, last, separator);
        assert JoinWith(kept, separator) != "";
      }
      assert [last][1..] == [];
    }
  }

  /** The devices present in the slots of the plugin's array. */
  function Present(slots: seq<Option<Device>>): seq<Device> {
    if slots == [] then []
    else
      Present(slots[..|slots| - 1]) + match slots[|slots| - 1] { case None => [] case Some(d) => [d] }
  }

  function WithSerial(devices: seq<Device>, serial: string): seq<Device> {
    if devices == [] then []
    else
      var last := devices[|devices| - 1];
      WithSerial(devices[..|devices| - 1], serial) + if last.serial == serial then [last] else []
  }

  /** The answer about one device: its properties, or the empty text of the capabilities. */
  function SerialReply(d: PluginDetails, cvalue: string, device: Device, reference: string, target: string): Outgoing {
    Outgoing(Occurrence(d.pluginName, true, cvalue, if cvalue == "PROPERTIES" then device.properties else "",
        reference),
             target)
  }

  function SerialReplies(d: PluginDetails, cvalue: string, devices: seq<Device>, reference: string,
          target: string): seq<Outgoing> {
    if devices == [] then []
    else
      SerialReplies(d, cvalue, devices[..|devices| - 1], reference, target)
      + [SerialReply(d, cvalue, devices[|devices| - 1], reference, target)]
  }

  lemma OneMoreDevice(devices: seq<Device>, d: Device, separator: string, serial: string)
    ensures var before := Listing(devices, separator);
            Listing(devices + [d], separator) == (if |before| != 0 then before + separator else before) + d.info
    ensures WithSerial(devices + [d], serial) == WithSerial(devices, serial) + if d.serial == serial then [d] else []
  {
    assert (devices + [d])[..|devices|] == devices;
  }

  lemma OneMoreReply(c: Client, names: seq<string>, d: PluginDetails, cvalue: string, devices: seq<Device>,
          device: Device,
    reference: string, target: string)
    ensures var reply := SerialReply(d, cvalue, device, reference, target);
            SendAll(c, SerialReplies(d, cvalue, devices + [device], reference, target), names) ==
            AfterSendMessage(SendAll(c, SerialReplies(d, cvalue, devices, reference, target), names),
                             reply.msg, target, names)
  {
    assert (devices + [device])[..|devices|] == devices;
    SendOneMore(c, SerialReplies(d, cvalue, devices, reference, target),
      SerialReply(d, cvalue, device, reference, target), names);
  }

  /** The client after the answers about those of `devices` that carry the serial. */
  function Answered(before: Client, names: seq<string>, d: PluginDetails, cvalue: string, devices: seq<Device>,
    serial: string, reference: string, target: string): Client
  {
    SendAll(before, SerialReplies(d, cvalue, WithSerial(devices, serial), reference, target), names)
  }

  function FakeReplies(d: PluginDetails, slots: seq<Option<Device>>, source: string, msg: IBMessage): seq<Outgoing> {
    if msg.payload.ptype != "command" || msg.payload.value != "GET" then []
    else if msg.payload.cvalue == "LIST" then
      [Outgoing(Occurrence(d.pluginName, true, "LIST", EscapeQuotes(Listing(Present(slots), ", ")), msg.id), "")]
    else if msg.payload.cvalue == "PROPERTIES" then
      SerialReplies(d, "PROPERTIES", WithSerial(Present(slots), SerialOf(source)), msg.id, "")
    else []
  }

  class FakeDevicesPlugin {
    const pluginDetails: PluginDetails
    const busClient: InnerBusClient
    const deviceList: array<Option<Device>>

    constructor (details: PluginDetails, client: InnerBusClient, devices: array<Option<Device>>)
      ensures pluginDetails == details && busClient == client && deviceList == devices
    {
      pluginDetails, busClient, deviceList := details, client, devices;
    }

    method SendOccurrence(success: bool, cvalue: string, content: string, reference: string)
      modifies busClient`wire
      ensures busClient.View() == AfterSendMessage(old(busClient.View()),
        Occurrence(pluginDetails.pluginName, success, cvalue, content, reference), "", busClient.bus.clientsList)
      ensures var payload := IBPayload("event", if success then "SUCCESS" else "FAILED", cvalue, content);
              busClient.View() == AfterSendMessage(old(busClient.View()),
                IBMessage(pluginDetails.pluginName, payload, reference), "", busClient.bus.clientsList)
    {
      busClient.SendMessage(Occurrence(pluginDetails.pluginName, success, cvalue, content, reference), "");
    }

    method ListDevices() returns (devicesList: string)
      ensures devicesList == EscapeQuotes(Listing(Present(deviceList[..]), ", "))
    {
      var all := deviceList[..];
      devicesList := "";
      for typecount := 0 to deviceList.Length
        invariant devicesList == Listing(Present(all[..typecount]), ", ")
      {
        assert all[..typecount + 1][..typecount] == all[..typecount];
        if deviceList[typecount].Some? {
          assert Present(all[..typecount + 1]) == Present(all[..typecount]) + [deviceList[typecount].value];
          OneMoreDevice(Present(all[..typecount]), deviceList[typecount].value, ", ", "");
          if |devicesList| != 0 {
            devicesList := devicesList + ", ";
          }
          devicesList := devicesList + deviceList[typecount].value.info;
        } else {
          assert Present(all[..typecount + 1]) == Present(all[..typecount]);
        }
      }
      assert all[..deviceList.Length] == all;
      devicesList := Replace(devicesList, "\"", "*");
      devicesList := Replace(devicesList, "*", "\\\"");
    }

    method ReplyForSerial(serialSource: string, reference: string)
      modifies busClient`wire
      ensures busClient.View() == Answered(old(busClient.View()), busClient.bus.clientsList, pluginDetails,
          "PROPERTIES",
        Present(deviceList[..]), serialSource, reference, "")
    {
      ghost var before, names := busClient.View(), busClient.bus.clientsList;
      var all := deviceList[..];
      for typecount := 0 to deviceList.Length
        invariant busClient.View() ==
          Answered(before, names, pluginDetails, "PROPERTIES", Present(all[..typecount]), serialSource, reference, "")
      {
        assert all[..typecount + 1][..typecount] == all[..typecount];
        ghost var seen := Present(all[..typecount]);
        if deviceList[typecount].Some? {
          var device := deviceList[typecount].value;
          assert Present(all[..typecount + 1]) == seen + [device];
          OneMoreDevice(seen, device, "", serialSource);
          if device.serial == serialSource {
            OneMoreReply(before, names, pluginDetails, "PROPERTIES", WithSerial(seen, serialSource), device,
                reference, "");
            SendOccurrence(true, "PROPERTIES", device.properties, reference);
          } else {
            assert WithSerial(seen + [device], serialSource) == WithSerial(seen, serialSource);
          }
        } else {
          assert Present(all[..typecount + 1]) == seen;
        }
      }
      assert all[..deviceList.Length] == all;
    }

    method ExecuteCommand(source: string, msg: IBMessage)
      modifies busClient`wire
      ensures busClient.View() == SendAll(old(busClient.View()),
        FakeReplies(pluginDetails, deviceList[..], source, msg), busClient.bus.clientsList)
    {
      if msg.payload.ptype == "command" && msg.payload.value == "GET" {
        if msg.payload.cvalue == "LIST" {
          var devicesList := ListDevices();
          SendOneMore(busClient.View(), [], Outgoing(Occurrence(pluginDetails.pluginName, true, "LIST", devicesList,
              msg.id), ""),
            busClient.bus.clientsList);
          SendOccurrence(true, msg.payload.cvalue, devicesList, msg.id);
        } else if msg.payload.cvalue == "PROPERTIES" {
          ReplyForSerial(SerialOf(source), msg.id);
        }
      }
    }

    /** The devices go first, then the bus client says goodbye and is released. */
    method StopPlugin()
      modifies deviceList
      modifies busClient`wire, busClient`up, busClient`connected, busClient`disconnectedByUser, busClient`handle
      ensures forall i :: 0 <= i < deviceList.Length ==> deviceList[i] == None
      ensures busClient.View() == AfterFree(AfterDisconnect(old(busClient.View())))
      ensures busClient.disconnectedByUser && !busClient.connected && busClient.handle.None?
    {
      for typecount := 0 to deviceList.Length
        invariant forall i :: 0 <= i < typecount ==> deviceList[i] == None
        invariant busClient.View() == old(busClient.View())
      {
        if deviceList[typecount].Some? {
          deviceList[typecount] := None;
        }
      }
      busClient.Disconnect();
      busClient.Free();
    }
  }

  // ------------------------------------------------------------ nest devices

  function Flatten(types: seq<seq<Device>>): seq<Device> {
    if types == [] then [] else Flatten(types[..|types| - 1]) + types[|types| - 1]
  }

  function NestReplies(d: PluginDetails, types: seq<seq<Device>>, source: string, msg: IBMessage): seq<Outgoing> {
    var serial := SerialOf(source);
    if msg.payload.ptype != "command" || msg.payload.value != "GET" then []
    else if msg.payload.cvalue == "LIST" then
      [Outgoing(Occurrence(d.pluginName, true, "LIST", Listing(Flatten(types), ",\n"), msg.id), "")]
    else if msg.payload.cvalue == "PROPERTIES" || msg.payload.cvalue == "CAPABILITIES" then
      SerialReplies(d, msg.payload.cvalue, WithSerial(Flatten(types), serial), msg.id, serial)
    else []
  }

  /** The devices of the types before `t`, and the first `i` of type `t`. */
  function UpTo(types: seq<seq<Device>>, t: nat, i: nat): seq<Device>
    requires t < |types| && i <= |types[t]|
  {
    Flatten(types[..t]) + types[t][..i]
  }

  lemma UpToNext(types: seq<seq<Device>>, t: nat, i: nat)
    requires t < |types| && i <= |types[t]|
    ensures i < |types[t]| ==> UpTo(types, t, i + 1) == UpTo(types, t, i) + [types[t][i]]
    ensures UpTo(types, t, 0) == Flatten(types[..t])
    ensures UpTo(types, t, |types[t]|) == Flatten(types[..t + 1])
  {
    assert types[..t + 1][..t] == types[..t];
  }

  class NestDevicesPlugin {
    const pluginDetails: PluginDetails
    const busClient: InnerBusClient
    var typeList: seq<seq<Device>>

    constructor (details: PluginDetails, client: InnerBusClient, types: seq<seq<Device>>)
      ensures pluginDetails == details && busClient == client && typeList == types
    {
      pluginDetails, busClient, typeList := details, client, types;
    }

    method SendOccurrence(success: bool, cvalue: string, content: string, reference: string, sender: string)
      modifies busClient`wire
      ensures busClient.View() == AfterSendMessage(old(busClient.View()),
        Occurrence(pluginDetails.pluginName, success, cvalue, content, reference), sender, busClient.bus.clientsList)
      ensures var payload := IBPayload("event", if success then "SUCCESS" else "FAILED", cvalue, content);
              busClient.View() == AfterSendMessage(old(busClient.View()),
                IBMessage(pluginDetails.pluginName, payload, reference), sender, busClient.bus.clientsList)
    {
      busClient.SendMessage(Occurrence(pluginDetails.pluginName, success, cvalue, content, reference), sender);
    }

    method ListDevices() returns (devicesList: string)
      ensures devicesList == Listing(Flatten(typeList), ",\n")
    {
      devicesList := "";
      for typecount := 0 to |typeList|
        invariant devicesList == Listing(Flatten(typeList[..typecount]), ",\n")
      {
        var devices := typeList[typecount];
        UpToNext(typeList, typecount, 0);
        for i := 0 to |devices|
          invariant devicesList == Listing(UpTo(typeList, typecount, i), ",\n")
        {
          UpToNext(typeList, typecount, i);
          OneMoreDevice(UpTo(typeList, typecount, i), devices[i], ",\n", "");
          if |devicesList| != 0 {
            devicesList := devicesList + ",\n";
          }
          devicesList := devicesList + devices[i].info;
        }
        UpToNext(typeList, typecount, |devices|);
      }
      assert typeList[..|typeList|] == typeList;
    }

    /** One device of the search, after the devices `seen`. */
    method ReplyIfSerial(device: Device, serialSource: string, cvalue: string, reference: string,
      ghost before: Client, ghost names: seq<string>, ghost seen: seq<Device>)
      requires cvalue == "PROPERTIES" || cvalue == "CAPABILITIES"
      requires names == busClient.bus.clientsList
      requires busClient.View() == Answered(before, names, pluginDetails, cvalue, seen, serialSource, reference,
          serialSource)
      modifies busClient`wire
      ensures busClient.View() ==
        Answered(before, names, pluginDetails, cvalue, seen + [device], serialSource, reference, serialSource)
    {
      OneMoreDevice(seen, device, "", serialSource);
      if device.serial == serialSource {
        OneMoreReply(before, names, pluginDetails, cvalue, WithSerial(seen, serialSource), device, reference,
            serialSource);
        SendOccurrence(true, cvalue, if cvalue == "PROPERTIES" then device.properties else "", reference, serialSource);
      } else {
        assert WithSerial(seen + [device], serialSource) == WithSerial(seen, serialSource);
      }
    }

    /** The search over every device of every type, shared by two of the requests. */
    method ReplyForSerial(serialSource: string, cvalue: string, reference: string)
      requires cvalue == "PROPERTIES" || cvalue == "CAPABILITIES"
      modifies busClient`wire
      ensures busClient.View() == Answered(old(busClient.View()), busClient.bus.clientsList, pluginDetails, cvalue,
        Flatten(typeList), serialSource, reference, serialSource)
    {
      ghost var before, names := busClient.View(), busClient.bus.clientsList;
      for typecount := 0 to |typeList|
        invariant busClient.View() ==
          Answered(before, names, pluginDetails, cvalue, Flatten(typeList[..typecount]), serialSource, reference,
              serialSource)
      {
        var devices := typeList[typecount];
        UpToNext(typeList, typecount, 0);
        for i := 0 to |devices|
          invariant busClient.View() ==
            Answered(before, names, pluginDetails, cvalue, UpTo(typeList, typecount, i), serialSource, reference,
                serialSource)
        {
          UpToNext(typeList, typecount, i);
          ReplyIfSerial(devices[i], serialSource, cvalue, reference, before, names, UpTo(typeList, typecount, i));
        }
        UpToNext(typeList, typecount, |devices|);
      }
      assert typeList[..|typeList|] == typeList;
    }

    method ExecuteCommand(source: string, msg: IBMessage)
      modifies busClient`wire
      ensures busClient.View() == SendAll(old(busClient.View()),
        NestReplies(pluginDetails, typeList, source, msg), busClient.bus.clientsList)
    {
      if msg.payload.ptype == "command" && msg.payload.value == "GET" {
        if msg.payload.cvalue == "LIST" {
          var devicesList := ListDevices();
          SendOneMore(busClient.View(), [], Outgoing(Occurrence(pluginDetails.pluginName, true, "LIST", devicesList,
              msg.id), ""),
            busClient.bus.clientsList);
          SendOccurrence(true, "LIST", devicesList, msg.id, "");
        } else if msg.payload.cvalue == "PROPERTIES" || msg.payload.cvalue == "CAPABILITIES" {
          ReplyForSerial(SerialOf(source), msg.payload.cvalue, msg.id);
        }
      }
    }
  }

  // --------------------------------------------------- answers and requests

  lemma {:induction false} SerialRepliesEach(d: PluginDetails, cvalue: string, devices: seq<Device>,
          reference: string, target: string)
    ensures var outs := SerialReplies(d, cvalue, devices, reference, target);
            && |outs| == |devices|
            && forall i :: 0 <= i < |outs| ==> outs[i] == SerialReply(d, cvalue, devices[i], reference, target)
  {
    if devices != [] {
      SerialRepliesEach(d, cvalue, devices[..|devices| - 1], reference, target);
    }
  }

  /** An answer that succeeds, about what was asked, with the request's id as reference. */
  predicate Answers(o: Outgoing, msg: IBMessage, target: string) {
    && o.msg.reference == msg.id && o.target == target
    && o.msg.payload.ptype == "event" && o.msg.payload.value == "SUCCESS"
    && o.msg.payload.cvalue == msg.payload.cvalue
  }

  predicate Asks(msg: IBMessage, cvalue: string) {
    msg.payload.ptype == "command" && msg.payload.value == "GET" && msg.payload.cvalue == cvalue
  }

  /** The serial that a request is about: the third level of its topic. */
  function AskedSerial(source: string): string {
    var ls := Levels(source);
    if |ls| >= 3 then ls[2] else ls[0]
  }

  ghost predicate AllAnswer(outs: seq<Outgoing>, msg: IBMessage, target: string) {
    forall o <- outs :: Answers(o, msg, target)
  }

  lemma SerialRepliesAnswer(d: PluginDetails, devices: seq<Device>, msg: IBMessage, target: string)
    ensures AllAnswer(SerialReplies(d, msg.payload.cvalue, devices, msg.id, target), msg, target)
    ensures |SerialReplies(d, msg.payload.cvalue, devices, msg.id, target)| == |devices|
  {
    SerialRepliesEach(d, msg.payload.cvalue, devices, msg.id, target);
  }

  lemma ListReplyAnswers(d: PluginDetails, text: string, msg: IBMessage)
    requires msg.payload.cvalue == "LIST"
    ensures AllAnswer([Outgoing(Occurrence(d.pluginName, true, "LIST", text, msg.id), "")], msg, "")
  {
  }

  /** The fake plugin answers a LIST once, a PROPERTIES once for each device of the asked
      serial, never with a sender level, and nothing else. */
  lemma FakeAnswers(d: PluginDetails, slots: seq<Option<Device>>, source: string, msg: IBMessage)
    ensures AllAnswer(FakeReplies(d, slots, source, msg), msg, "")
    ensures |FakeReplies(d, slots, source, msg)| ==
            if Asks(msg, "LIST") then 1
            else if Asks(msg, "PROPERTIES") then |WithSerial(Present(slots), AskedSerial(source))|
            else 0
  {
    if Asks(msg, "LIST") {
      ListReplyAnswers(d, EscapeQuotes(Listing(Present(slots), ", ")), msg);
    } else if Asks(msg, "PROPERTIES") {
      SerialOfMeaning(source);
      SerialRepliesAnswer(d, WithSerial(Present(slots), SerialOf(source)), msg, "");
    } else {
      assert FakeReplies(d, slots, source, msg) == [];
    }
  }

  /** The nest plugin also answers CAPABILITIES, and names the serial as the sender. */
  lemma NestAnswers(d: PluginDetails, types: seq<seq<Device>>, source: string, msg: IBMessage)
    ensures AllAnswer(NestReplies(d, types, source, msg), msg,
                      if msg.payload.cvalue == "LIST" then "" else AskedSerial(source))
    ensures |NestReplies(d, types, source, msg)| ==
            if Asks(msg, "LIST") then 1
            else if Asks(msg, "PROPERTIES") || Asks(msg, "CAPABILITIES")
            then |WithSerial(Flatten(types), AskedSerial(source))|
            else 0
  {
    if Asks(msg, "LIST") {
      ListReplyAnswers(d, Listing(Flatten(types), ",\n"), msg);
    } else if Asks(msg, "PROPERTIES") || Asks(msg, "CAPABILITIES") {
      SerialOfMeaning(source);
      SerialRepliesAnswer(d, WithSerial(Flatten(types), SerialOf(source)), msg, SerialOf(source));
    } else {
      assert NestReplies(d, types, source, msg) == [];
    }
  }

  ghost predicate Increasing(at: seq<nat>) {
    forall j, k :: 0 <= j < k < |at| ==> at[j] < at[k]
  }

  ghost predicate InReadingOrder(at: seq<(nat, nat)>) {
    forall j, k :: 0 <= j < k < |at| ==> at[j].0 < at[k].0 || (at[j].0 == at[k].0 && at[j].1 < at[k].1)
  }

  /** The slots with a present device of this serial. */
  ghost predicate SlotsWith(slots: seq<Option<Device>>, serial: string, at: seq<nat>) {
    && Increasing(at)
    && forall i: nat :: i in at <==> i < |slots| && slots[i].Some? && slots[i].value.serial == serial
  }

  /** The devices of this serial, by type and by place within the type. */
  ghost predicate PlacesWith(types: seq<seq<Device>>, serial: string, at: seq<(nat, nat)>) {
    && InReadingOrder(at)
    && forall t: nat, i: nat :: (t, i) in at <==> t < |types| && i < |types[t]| && types[t][i].serial == serial
  }

  /** `found` are the devices in these slots. */
  ghost predicate InSlots(found: seq<Device>, slots: seq<Option<Device>>, at: seq<nat>) {
    |found| == |at| && forall k :: 0 <= k < |at| ==> at[k] < |slots| && slots[at[k]] == Some(found[k])
  }

  lemma SlotsWithSnoc(slots: seq<Option<Device>>, serial: string, front: seq<nat>, n: nat, hit: bool)
    requires |slots| == n + 1 && SlotsWith(slots[..n], serial, front)
    requires hit == (slots[n].Some? && slots[n].value.serial == serial)
    ensures SlotsWith(slots, serial, front + if hit then [n] else [])
  {
    var at := front + if hit then [n] else [];
    assert forall k :: 0 <= k < |front| ==> front[k] in front;
    forall i: nat ensures i in at <==> i < |slots| && slots[i].Some? && slots[i].value.serial == serial {
      assert i in at <==> i in front || (hit && i == n);
      assert i < n ==> slots[..n][i] == slots[i];
    }
  }

  lemma PresentSnoc(slots: seq<Option<Device>>, serial: string, n: nat)
    requires |slots| == n + 1
    ensures WithSerial(Present(slots), serial) ==
            WithSerial(Present(slots[..n]), serial)
            + if slots[n].Some? && slots[n].value.serial == serial then [slots[n].value] else []
  {
    if slots[n].Some? {
      OneMoreDevice(Present(slots[..n]), slots[n].value, "", serial);
    } else {
      assert Present(slots) == Present(slots[..n]);
    }
  }

  lemma {:induction false} SelectedSlots(slots: seq<Option<Device>>, serial: string) returns (at: seq<nat>)
    ensures SlotsWith(slots, serial, at) && InSlots(WithSerial(Present(slots), serial), slots, at)
  {
    if slots == [] {
      at := [];
    } else {
      var n := |slots| - 1;
      var hit := slots[n].Some? && slots[n].value.serial == serial;
      var front := SelectedSlots(slots[..n], serial);
      at := front + if hit then [n] else [];
      SlotsWithSnoc(slots, serial, front, n, hit);
      PresentSnoc(slots, serial, n);
      assert forall k :: 0 <= k < |front| ==> slots[..n][front[k]] == slots[front[k]];
    }
  }

  lemma {:induction false} WithSerialOfConcat(a: seq<Device>, b: seq<Device>, serial: string)
    ensures WithSerial(a + b, serial) == WithSerial(a, serial) + WithSerial(b, serial)
  {
    if b == [] {
      assert a + b == a;
    } else {
      var n := |b| - 1;
      var front, last := b[..n], b[n];
      WithSerialOfConcat(a, front, serial);
      OneMoreDevice(a + front, last, "", serial);
      OneMoreDevice(front, last, "", serial);
      assert b == front + [last] && a + b == a + front + [last];
    }
  }

  /** `found` are the devices at these places. */
  ghost predicate AtPlaces(found: seq<Device>, types: seq<seq<Device>>, at: seq<(nat, nat)>) {
    && |found| == |at|
    && forall k :: 0 <= k < |at| ==>
         at[k].0 < |types| && at[k].1 < |types[at[k].0]| && types[at[k].0][at[k].1] == found[k]
  }

  /** The places of the serial among the first `n` devices of type `t`. */
  ghost predicate PlacesOfType(devices: seq<Device>, serial: string, t: nat, n: nat, at: seq<(nat, nat)>)
    requires n <= |devices|
  {
    && InReadingOrder(at)
    && (forall k :: 0 <= k < |at| ==> at[k].0 == t && at[k].1 < n)
    && forall i: nat :: (t, i) in at <==> i < n && devices[i].serial == serial
  }

  lemma PlacesOfTypeSnoc(devices: seq<Device>, serial: string, t: nat, n: nat, front: seq<(nat, nat)>)
    requires n < |devices| && PlacesOfType(devices, serial, t, n, front)
    ensures PlacesOfType(devices, serial, t, n + 1, front + if devices[n].serial == serial then [(t, n)] else [])
  {
    var hit := devices[n].serial == serial;
    var at := front + if hit then [(t, n)] else [];
    forall i: nat ensures (t, i) in at <==> i < n + 1 && devices[i].serial == serial {
      assert (t, i) in at <==> (t, i) in front || (hit && i == n);
    }
  }

  lemma {:induction false} SelectedOfType(types: seq<seq<Device>>, serial: string, t: nat, n: nat)
    returns (at: seq<(nat, nat)>)
    requires t < |types| && n <= |types[t]|
    ensures PlacesOfType(types[t], serial, t, n, at)
    ensures AtPlaces(WithSerial(types[t][..n], serial), types, at)
    decreases n
  {
    if n == 0 {
      at := [];
    } else {
      var front := SelectedOfType(types, serial, t, n - 1);
      at := front + if types[t][n - 1].serial == serial then [(t, n - 1)] else [];
      PlacesOfTypeSnoc(types[t], serial, t, n - 1, front);
      assert types[t][..n][..n - 1] == types[t][..n - 1];
    }
  }

  lemma PlacesWithConcat(types: seq<seq<Device>>, serial: string, n: nat, front: seq<(nat, nat)>, more: seq<(nat, nat)>)
    requires |types| == n + 1 && PlacesWith(types[..n], serial, front)
    requires PlacesOfType(types[n], serial, n, |types[n]|, more)
    ensures PlacesWith(types, serial, front + more)
  {
    var at := front + more;
    forall k | 0 <= k < |front| ensures front[k].0 < n {
      assert front[k] in front && front[k] == (front[k].0, front[k].1);
    }
    forall t: nat, i: nat
      ensures (t, i) in at <==> t < |types| && i < |types[t]| && types[t][i].serial == serial
    {
      assert (t, i) in at <==> (t, i) in front || (t, i) in more;
      assert t < n ==> types[..n][t] == types[t];
    }
  }

  lemma FlattenSnoc(types: seq<seq<Device>>, serial: string, n: nat)
    requires |types| == n + 1
    ensures WithSerial(Flatten(types), serial) == WithSerial(Flatten(types[..n]), serial) + WithSerial(types[n], serial)
  {
    WithSerialOfConcat(Flatten(types[..n]), types[n], serial);
  }

  lemma {:induction false} SelectedPlaces(types: seq<seq<Device>>, serial: string) returns (at: seq<(nat, nat)>)
    ensures PlacesWith(types, serial, at) && AtPlaces(WithSerial(Flatten(types), serial), types, at)
  {
    if types == [] {
      at := [];
    } else {
      var n := |types| - 1;
      var front := SelectedPlaces(types[..n], serial);
      at := SelectedStep(types, serial, n, front);
    }
  }

  lemma SelectedStep(types: seq<seq<Device>>, serial: string, n: nat, front: seq<(nat, nat)>)
    returns (at: seq<(nat, nat)>)
    requires |types| == n + 1 && PlacesWith(types[..n], serial, front)
    requires AtPlaces(WithSerial(Flatten(types[..n]), serial), types[..n], front)
    ensures PlacesWith(types, serial, at) && AtPlaces(WithSerial(Flatten(types), serial), types, at)
  {
    var more := SelectedOfType(types, serial, n, |types[n]|);
    at := front + more;
    assert types[n][..|types[n]|] == types[n];
    PlacesWithConcat(types, serial, n, front, more);
    FlattenSnoc(types, serial, n);
    AtPlacesConcat(WithSerial(Flatten(types[..n]), serial), WithSerial(types[n], serial), types, n, front, more);
  }

  lemma AtPlacesConcat(found: seq<Device>, rest: seq<Device>, types: seq<seq<Device>>, n: nat, front: seq<(nat, nat)>,
          more: seq<(nat, nat)>)
    requires n <= |types| && AtPlaces(found, types[..n], front) && AtPlaces(rest, types, more)
    ensures AtPlaces(found + rest, types, front + more)
  {
    forall k | 0 <= k < |front| ensures types[front[k].0] == types[..n][front[k].0] {
    }
  }

  /** The answers to PROPERTIES in full: one for each present device of the asked serial, in
      slot order, with that device's properties. */
  lemma FakePropertiesAnswers(d: PluginDetails, slots: seq<Option<Device>>, source: string, msg: IBMessage)
    returns (at: seq<nat>)
    requires Asks(msg, "PROPERTIES")
    ensures SlotsWith(slots, AskedSerial(source), at)
    ensures var outs := FakeReplies(d, slots, source, msg);
            |outs| == |at| && forall k :: 0 <= k < |at| ==>
              && at[k] < |slots| && slots[at[k]].Some?
              && outs[k].msg.payload == IBPayload("event", "SUCCESS", "PROPERTIES", slots[at[k]].value.properties)
              && outs[k].msg.id == d.pluginName && outs[k].msg.reference == msg.id && outs[k].target == ""
  {
    SerialOfMeaning(source);
    at := SelectedSlots(slots, AskedSerial(source));
    SerialRepliesEach(d, "PROPERTIES", WithSerial(Present(slots), AskedSerial(source)), msg.id, "");
  }

  /** The same for the nest plugin, over all types; the answers to CAPABILITIES are empty. */
  lemma NestPropertiesAnswers(d: PluginDetails, types: seq<seq<Device>>, source: string, msg: IBMessage)
    returns (at: seq<(nat, nat)>)
    requires Asks(msg, "PROPERTIES") || Asks(msg, "CAPABILITIES")
    ensures PlacesWith(types, AskedSerial(source), at)
    ensures var outs := NestReplies(d, types, source, msg);
            |outs| == |at| && forall k :: 0 <= k < |at| ==>
              && at[k].0 < |types| && at[k].1 < |types[at[k].0]|
              && outs[k].msg.payload == IBPayload("event", "SUCCESS", msg.payload.cvalue,
                   if msg.payload.cvalue == "PROPERTIES" then types[at[k].0][at[k].1].properties else "")
              && outs[k].msg.id == d.pluginName && outs[k].msg.reference == msg.id
              && outs[k].target == AskedSerial(source)
  {
    SerialOfMeaning(source);
    var serial := AskedSerial(source);
    at := SelectedPlaces(types, serial);
    SerialRepliesEach(d, msg.payload.cvalue, WithSerial(Flatten(types), serial), msg.id, serial);
  }

  // ------------------------------------------------------------- lifx bulbs

  const WRONG_RECIPIENT := "Wrong message recepient, not proccessed"
  const WRONG_TYPE := "Wrong message type, not command"
  const GET_DEVICE := "GET command for device must be proccessed"
  const GET_PLUGIN := "GET command for plugin must be proccessed"
  const SET_PLUGIN := "SET command for plugin must be proccessed"
  const WRONG_VALUE := "Wrong command value, not proccessed"

  function LifxReply(d: PluginDetails, success: bool, cvalue: string, content: string, reference: string,
          sender: string): Outgoing {
    Outgoing(Occurrence(d.pluginName + reference, success, cvalue, content, reference), sender)
  }

  function LifxReplies(d: PluginDetails, source: string, msg: IBMessage): seq<Outgoing> {
    var t1 := Tokens(source);
    if 4 < |t1| then
      [LifxReply(d, false, "ERRORMSG", WRONG_RECIPIENT, msg.id, "")]
    else if msg.payload.ptype != "command" then
      [LifxReply(d, false, "ERRORMSG", WRONG_TYPE, msg.id, "")]
    else if msg.payload.value == "GET" then
      if 4 == |t1| then
        [LifxReply(d, true, "TESTMSG", GET_DEVICE, msg.id, t1[2])]
      else
        [LifxReply(d, true, "TESTMSG", GET_PLUGIN, msg.id, "")]
    else if msg.payload.value == "SET" then
      if 4 == |t1| then
        [LifxReply(d, true, "PROPERTIES", msg.payload.content, msg.id, t1[2])]
      else
        [LifxReply(d, true, "TESTMSG", SET_PLUGIN, msg.id, "")]
    else
      [LifxReply(d, false, "ERRORMSG", WRONG_VALUE, msg.id, "")]
  }

  /** A command SET on a topic with a device level. */
  predicate SetsDevice(source: string, msg: IBMessage) {
    |Levels(source)| == 4 && msg.payload.ptype == "command" && msg.payload.value == "SET"
  }

  /** One datagram more, of 38 bytes, that reads back as the command to set this power. */
  ghost predicate OneMorePower(before: seq<seq<Lifx.Byte>>, after: seq<seq<Lifx.Byte>>, level: nat) {
    && |after| == |before| + 1 && after[..|before|] == before
    && var bytes := after[|before|];
       var read := Lifx.Decode(bytes);
       && |bytes| == 38 && read.Some?
       && read.value.packetType == 0x15 && Lifx.Value(read.value.data) == level
  }

  class LifXBulbPlugin {
    const pluginDetails: PluginDetails
    const busClient: InnerBusClient
    /** What has been sent to the bulbs. */
    var datagrams: seq<seq<Lifx.Byte>>

    constructor (details: PluginDetails, client: InnerBusClient)
      ensures pluginDetails == details && busClient == client && datagrams == []
    {
      pluginDetails, busClient, datagrams := details, client, [];
    }

    method SendOccurrence(success: bool, cvalue: string, content: string, reference: string, sender: string)
      modifies busClient`wire
      ensures busClient.View() == SendAll(old(busClient.View()),
        [LifxReply(pluginDetails, success, cvalue, content, reference, sender)], busClient.bus.clientsList)
    {
      SendOneMore(busClient.View(), [], LifxReply(pluginDetails, success, cvalue, content, reference, sender),
        busClient.bus.clientsList);
      busClient.SendMessage(Occurrence(pluginDetails.pluginName + reference, success, cvalue, content, reference),
          sender);
    }

    /** "on" anywhere in the text wins over "off". `now` is the time of sending. */
    method ProcessDeviceSetCommand(content: string, now: nat)
      requires now < Lifx.Pow256(8)
      modifies this`datagrams
      ensures Occurs("on", content) ==> OneMorePower(old(datagrams), datagrams, 65535)
      ensures !Occurs("on", content) && Occurs("off", content) ==> OneMorePower(old(datagrams), datagrams, 0)
      ensures !Occurs("on", content) && !Occurs("off", content) ==> datagrams == old(datagrams)
    {
      if Occurs("on", content) {
        SendPower(65535, now);
      } else if Occurs("off", content) {
        SendPower(0, now);
      }
    }

    /** A new message, sent and deleted. */
    method SendPower(level: nat, now: nat)
      requires level < 0x1_0000 && now < Lifx.Pow256(8)
      modifies this`datagrams
      ensures OneMorePower(old(datagrams), datagrams, level)
    {
      var message := new Lifx.LifxMessage.SetPower(level);
      var datagram := message.SendMessage(now);
      Lifx.PowerOnWire(message.lifxPacket, level);
      datagrams := datagrams + [datagram];
    }

    method ExecuteCommand(source: string, msg: IBMessage, now: nat)
      requires now < Lifx.Pow256(8)
      modifies busClient`wire, this`datagrams
      ensures busClient.View() == SendAll(old(busClient.View()),
        LifxReplies(pluginDetails, source, msg), busClient.bus.clientsList)
      ensures SetsDevice(source, msg) && Occurs("on", msg.payload.content) ==>
                OneMorePower(old(datagrams), datagrams, 65535)
      ensures SetsDevice(source, msg) && !Occurs("on", msg.payload.content) && Occurs("off", msg.payload.content) ==>
                OneMorePower(old(datagrams), datagrams, 0)
      ensures !SetsDevice(source, msg) || (!Occurs("on", msg.payload.content) && !Occurs("off",
          msg.payload.content)) ==>
                datagrams == old(datagrams)
    {
      var t1 := Tokens(source);
      if 4 < |t1| {
        SendOccurrence(false, "ERRORMSG", WRONG_RECIPIENT, msg.id, "");
        return;
      }
      if msg.payload.ptype != "command" {
        SendOccurrence(false, "ERRORMSG", WRONG_TYPE, msg.id, "");
        return;
      }
      if msg.payload.value == "GET" {
        if 4 == |t1| {
          SendOccurrence(true, "TESTMSG", GET_DEVICE, msg.id, t1[2]);
        } else {
          SendOccurrence(true, "TESTMSG", GET_PLUGIN, msg.id, "");
        }
      } else if msg.payload.value == "SET" {
        if 4 == |t1| {
          ProcessDeviceSetCommand(msg.payload.content, now);
          SendOccurrence(true, "PROPERTIES", msg.payload.content, msg.id, t1[2]);
        } else {
          SendOccurrence(true, "TESTMSG", SET_PLUGIN, msg.id, "");
        }
      } else {
        SendOccurrence(false, "ERRORMSG", WRONG_VALUE, msg.id, "");
      }
    }
  }

  /** Every message is answered exactly once, with its id as the reference; a device level in
      the topic comes back as the sender, and only commands GET and SET succeed. */
  lemma LifxAnswersOnce(d: PluginDetails, source: string, msg: IBMessage)
    ensures var outs := LifxReplies(d, source, msg);
            var ls := Levels(source);
            && |outs| == 1
            && outs[0].msg.reference == msg.id
            && outs[0].msg.payload.ptype == "event"
            && (outs[0].msg.payload.value == "SUCCESS" <==>
                  msg.payload.ptype == "command" && |ls| <= 4 && msg.payload.value in {"GET", "SET"})
            && (outs[0].msg.payload.value == "SUCCESS" ==>
                  outs[0].target == if |ls| == 4 then ls[2] else "")
  {
    assert Tokens(source) == (if source == "" then [] else Levels(source));
    assert "SUCCESS" != "FAILED" by { assert "SUCCESS"[0] != "FAILED"[0]; }
  }

  /** What the answer says: the content of a SET for a device comes back as its properties. */
  lemma LifxAnswersSay(d: PluginDetails, source: string, msg: IBMessage)
    ensures var p, answer, n := msg.payload, LifxReplies(d, source, msg)[0].msg, |Levels(source)|;
            && answer.id == d.pluginName + msg.id
            && (SetsDevice(source, msg) ==>
                  answer.payload == IBPayload("event", "SUCCESS", "PROPERTIES", p.content))
            && (p.ptype == "command" && n <= 4 && !SetsDevice(source, msg) && p.value in {"GET", "SET"} ==>
                  && answer.payload.cvalue == "TESTMSG"
                  && answer.payload.content ==
                     if n == 4 then GET_DEVICE else if p.value == "GET" then GET_PLUGIN else SET_PLUGIN)
            && (n > 4 ==> answer.payload.content == WRONG_RECIPIENT)
            && (n <= 4 && p.ptype != "command" ==> answer.payload.content == WRONG_TYPE)
            && (n <= 4 && p.ptype == "command" && p.value !in {"GET", "SET"} ==>
                  answer.payload.content == WRONG_VALUE)
  {
    assert Tokens(source) == (if source == "" then [] else Levels(source));
    LevelsOfSlashFree("");
    assert "GET"[0] != "SET"[0];
  }

  // --------------------------------------------------------- cloud connector

  function CloudActs(d: PluginDetails, source: string, msg: IBMessage): seq<Act> {
    if msg.reference != d.pluginName || msg.payload.ptype != "event" || msg.payload.value != "SUCCESS" then []
    else if msg.payload.cvalue == "LIST" then [Discovered(PluginOf(source), msg.payload.content)]
    else if msg.payload.cvalue == "PROPERTIES" then [Connected(msg.payload.content)]
    else []
  }

  function ListCommand(d: PluginDetails): IBMessage {
    IBMessage(d.pluginName, IBPayload("command", "GET", "LIST", ""), "")
  }

  class CloudConnector {
    const pluginDetails: PluginDetails
    const busClient: InnerBusClient
    var isDiscovering: bool
    var acts: seq<Act>

    constructor (details: PluginDetails, client: InnerBusClient)
      ensures pluginDetails == details && busClient == client && !isDiscovering && acts == []
    {
      pluginDetails, busClient, isDiscovering, acts := details, client, false, [];
    }

    method ExecuteCommand(source: string, msg: IBMessage)
      modifies this`acts
      ensures acts == old(acts) + CloudActs(pluginDetails, source, msg)
      ensures msg.payload.ptype != "event" || msg.payload.value != "SUCCESS"
              || msg.reference != pluginDetails.pluginName || msg.payload.cvalue !in {"LIST", "PROPERTIES"} ==>
                acts == old(acts)
    {
      if msg.reference == pluginDetails.pluginName && msg.payload.ptype == "event" && msg.payload.value == "SUCCESS" {
        if msg.payload.cvalue == "LIST" {
          var pluginSource := PluginOf(source);
          acts := acts + [Discovered(pluginSource, msg.payload.content)];
        } else if msg.payload.cvalue == "PROPERTIES" {
          acts := acts + [Connected(msg.payload.content)];
        }
      }
    }

    method DiscoverSensors()
      modifies this`isDiscovering, busClient`wire
      ensures isDiscovering
      ensures busClient.View() == AfterSendMessage(old(busClient.View()), ListCommand(pluginDetails), "",
          busClient.bus.clientsList)
      ensures var payload := IBPayload("command", "GET", "LIST", "");
              busClient.View() == AfterSendMessage(old(busClient.View()),
                IBMessage(pluginDetails.pluginName, payload, ""), "", busClient.bus.clientsList)
    {
      isDiscovering := true;
      busClient.SendMessage(IBMessage(pluginDetails.pluginName, IBPayload("command", "GET", "LIST", ""), ""), "");
    }
  }

  /** A reply on a plugin's event topic, three or four levels long, makes the connector act
      exactly when the reference is its own name: a list is passed on under the replying
      plugin's id, properties as they are. */
  lemma CloudAcceptsOwnReplies(d: PluginDetails, cfg: Config, sender: string, reply: IBMessage)
    requires SlashFree(cfg.prefix) && SlashFree(cfg.id) && SlashFree(cfg.occurrenceTopic)
    requires reply.payload.ptype == "event" && reply.payload.value == "SUCCESS"
    ensures CloudActs(d, EventTopic(cfg, sender), reply) ==
            if reply.reference != d.pluginName then []
            else if reply.payload.cvalue == "LIST" then [Discovered(cfg.id, reply.payload.content)]
            else if reply.payload.cvalue == "PROPERTIES" then [Connected(reply.payload.content)]
            else []
  {
    var own := cfg.prefix + "/" + cfg.id;
    var front := if sender == "" then own else own + "/" + sender;
    LevelsOfConcat(cfg.prefix, cfg.id);
    LevelsOfConcat(own, sender);
    LevelsOfConcat(front, cfg.occurrenceTopic);
    LevelsOfSlashFree(cfg.prefix);
    LevelsOfSlashFree(cfg.id);
    PluginOfMeaning(EventTopic(cfg, sender));
  }
}
