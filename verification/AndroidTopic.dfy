/** The phone application's topics: a second printer and parser for the topic grammar. A
    missing value stands for null, a failed result for a thrown exception. */
module AndroidTopic {
  import opened Options
  import opened Topics
  import BusModel
  import Routing

  datatype MessageType = Command | Event | Status | Property | All
  datatype TopicType = Gateway | Plugin | Sensor
  datatype BuildError = NoSuchLevel | EmptyGateway | NoType | PropertyWithoutType
  datatype Result<+T> = Ok(value: T) | Err(error: BuildError)

  function NameOf(t: MessageType): string {
    match t
    case Command => "command"
    case Event => "event"
    case Status => "status"
    case Property => "property"
    case All => "#"
  }

  /** A lookup over the five names; any other name is a property. */
  function MessageTypeFromString(name: Option<string>): Option<MessageType> {
    match name
    case None => None
    case Some("command") => Some(Command)
    case Some("event") => Some(Event)
    case Some("status") => Some(Status)
    case Some("property") => Some(Property)
    case Some("#") => Some(All)
    case Some(_) => Some(Property)
  }

  function DropTrailingEmpty(parts: seq<string>): seq<string> {
    if parts != [] && parts[|parts| - 1] == "" then DropTrailingEmpty(parts[..|parts| - 1]) else parts
  }

  /** `split("/")`: trailing empty parts are dropped, unless there was no slash at all. */
  function Split(topic: string): seq<string> {
    if SlashFree(topic) then [topic] else DropTrailingEmpty(Levels(topic))
  }

  function TopicTypeFromString(topic: Option<string>): Option<TopicType> {
    if topic.None? then None
    else
      var n := |Split(topic.value)|;
      if n == 2 then Some(Gateway) else if n == 3 then Some(Plugin) else if n == 4 then Some(Sensor) else None
  }

  function LevelAt(topic: string, i: nat): Result<string> {
    var parts := Split(topic);
    if i < |parts| then Ok(parts[i]) else Err(NoSuchLevel)
  }

  function GetMessageType(topic: Option<string>): Option<MessageType> {
    if topic.None? then None
    else
      var parts := Split(topic.value);
      if |parts| > 1 then MessageTypeFromString(Some(parts[|parts| - 1])) else None
  }

  /** A builder's fields. */
  datatype Parts = Parts(
    gatewayId: Option<string>,
    pluginId: Option<string>,
    deviceId: Option<string>,
    property: Option<string>,
    mtype: Option<MessageType>)

  /** The fields of a builder made from a topic. */
  function PartsOf(topic: string): Result<Parts> {
    var parts := Split(topic);
    if parts == [] then Err(NoSuchLevel)
    else
      var blank := Parts(Some(parts[0]), None, None, None, None);
      if |parts| == 3 then Ok(blank.(pluginId := Some(parts[1])))
      else if |parts| == 4 then Ok(blank.(pluginId := Some(parts[1]), deviceId := Some(parts[2])))
      else Ok(blank)
  }

  /** A property that was never set is printed as "null". */
  function LastLevel(p: Parts): string
    requires p.mtype.Some?
  {
    if p.mtype.value == Property then (if p.property.Some? then p.property.value else "null")
    else NameOf(p.mtype.value)
  }

  function Optional(part: Option<string>): seq<string> {
    match part case None => [] case Some(s) => [s]
  }

  /** The levels a built topic is made of. */
  function BuiltLevels(p: Parts): seq<string>
    requires p.gatewayId.Some? && p.mtype.Some?
  {
    [p.gatewayId.value] + Optional(p.pluginId) + Optional(p.deviceId) + [LastLevel(p)]
  }

  function Built(p: Parts): Result<string> {
    if p.gatewayId.None? || p.gatewayId.value == "" then Err(EmptyGateway)
    else if p.mtype.None? then Err(NoType)
    else if p.property.Some? && p.mtype.value != Property then Err(PropertyWithoutType)
    else Ok(Join(BuiltLevels(p)))
  }

  class Builder {
    var gatewayId: Option<string>
    var pluginId: Option<string>
    var deviceId: Option<string>
    var property: Option<string>
    var mtype: Option<MessageType>

    function View(): Parts
      reads this
    {
      Parts(gatewayId, pluginId, deviceId, property, mtype)
    }

    constructor ()
      ensures View() == Parts(None, None, None, None, None)
    {
      gatewayId, pluginId, deviceId, property, mtype := None, None, None, None, None;
    }

    /** From a topic; null when the topic has no first part to read. */
    static method FromTopic(topic: string) returns (b: Builder?)
      ensures b == null <==> PartsOf(topic).Err?
      ensures b != null ==> fresh(b) && PartsOf(topic) == Ok(b.View())
      ensures b == null <==> Split(topic) == []
      ensures b != null ==>
                var parts := Split(topic);
                && b.gatewayId == Some(parts[0]) && b.property.None? && b.mtype.None?
                && b.pluginId == (if |parts| in {3, 4} then Some(parts[1]) else None)
                && b.deviceId == (if |parts| == 4 then Some(parts[2]) else None)
    {
      if |Split(topic)| == 0 {
        return null;
      }
      b := new Builder();
      b.gatewayId := Some(Split(topic)[0]);
      var kind := TopicTypeFromString(Some(topic));
      if kind == Some(Plugin) {
        b.pluginId := Some(Split(topic)[1]);
      } else if kind == Some(Sensor) {
        b.pluginId := Some(Split(topic)[1]);
        b.deviceId := Some(Split(topic)[2]);
      }
    }

    method SetType(t: MessageType)
      modifies this`mtype
      ensures View() == old(View()).(mtype := Some(t))
    {
      mtype := Some(t);
    }

    method Build() returns (r: Result<string>)
      ensures r == Built(View())
      ensures gatewayId in {None, Some("")} ==> r == Err(EmptyGateway)
      ensures gatewayId !in {None, Some("")} && mtype.None? ==> r == Err(NoType)
      ensures gatewayId !in {None, Some("")} && mtype.Some? && mtype != Some(Property) && property.Some? ==>
                r == Err(PropertyWithoutType)
      ensures gatewayId !in {None, Some("")} && mtype.Some? && (mtype == Some(Property) || property.None?) ==>
                && r.Ok?
                && r.value == gatewayId.value
                              + (if pluginId.Some? then "/" + pluginId.value else "")
                              + (if deviceId.Some? then "/" + deviceId.value else "")
                              + "/"
                              + match mtype.value
                                case Command => "command"
                                case Event => "event"
                                case Status => "status"
                                case All => "#"
                                case Property => if property.Some? then property.value else "null"
    {
      if gatewayId.None? || gatewayId.value == "" {
        return Err(EmptyGateway);
      }
      if mtype.None? {
        return Err(NoType);
      }
      if property.Some? && mtype.value != Property {
        return Err(PropertyWithoutType);
      }
      var builder := gatewayId.value;
      ghost var front := gatewayId.value + (if pluginId.Some? then "/" + pluginId.value else "");
      if pluginId.Some? {
        builder := builder + "/" + pluginId.value;
      }
      assert builder == front;
      ghost var front2 := front + (if deviceId.Some? then "/" + deviceId.value else "");
      if deviceId.Some? {
        builder := builder + "/" + deviceId.value;
      }
      assert builder == front2;
      builder := builder + "/";
      builder := builder + (if mtype.value == Property then (if property.Some? then property.value else "null")
                            else NameOf(mtype.value));
      JoinBuilt(View());
      return Ok(builder);
    }
  }

  lemma JoinBuilt(p: Parts)
    requires p.gatewayId.Some? && p.mtype.Some?
    ensures Join(BuiltLevels(p)) ==
            p.gatewayId.value
            + (if p.pluginId.Some? then "/" + p.pluginId.value else "")
            + (if p.deviceId.Some? then "/" + p.deviceId.value else "")
            + "/" + LastLevel(p)
  {
    var g, last := p.gatewayId.value, LastLevel(p);
    var devices := Optional(p.deviceId) + [last];
    JoinCons(g, Optional(p.pluginId) + devices);
    assert BuiltLevels(p) == [g] + (Optional(p.pluginId) + devices);
    if p.deviceId.Some? {
      JoinCons(p.deviceId.value, [last]);
    } else {
      assert devices == [last];
    }
    if p.pluginId.Some? {
      JoinCons(p.pluginId.value, devices);
    } else {
      assert Optional(p.pluginId) + devices == devices;
    }
  }

  lemma JoinCons(first: string, rest: seq<string>)
    requires rest != []
    ensures Join([first] + rest) == first + "/" + Join(rest)
  {
    assert ([first] + rest)[1..] == rest;
  }

  // ------------------------------------------------------------- retargeting

  /** `new Builder(topic).type(x).build()`. */
  function Retarget(topic: string, x: MessageType): Result<string> {
    match PartsOf(topic)
    case Err(e) => Err(e)
    case Ok(p) => Built(p.(mtype := Some(x)))
  }

  function WithLastLevel(topic: string, name: string): string {
    var ls := Levels(topic);
    Join(ls[..|ls| - 1] + [name])
  }

  lemma {:induction false} DropTrailingEmptyMeaning(parts: seq<string>)
    ensures var kept := DropTrailingEmpty(parts);
            && kept <= parts
            && (kept != [] ==> kept[|kept| - 1] != "")
            && (forall i :: |kept| <= i < |parts| ==> parts[i] == "")
            && (parts != [] && parts[|parts| - 1] != "" ==> kept == parts)
  {
    if parts != [] && parts[|parts| - 1] == "" {
      DropTrailingEmptyMeaning(parts[..|parts| - 1]);
    }
  }

  lemma SplitMeaning(topic: string)
    ensures var ls, parts := Levels(topic), Split(topic);
            && parts <= ls
            && (ls[0] != "" ==> |parts| >= 1)
            && (ls[|ls| - 1] != "" || |ls| == 1 ==> parts == ls)
            && (ls[|ls| - 1] == "" && |ls| > 1 ==> |parts| < |ls|)
  {
    if SlashFree(topic) {
      LevelsOfSlashFree(topic);
    } else {
      DropTrailingEmptyMeaning(Levels(topic));
      if |Levels(topic)| == 1 {
        JoinOfLevels(topic);
        LevelsAreSlashFree(topic);
        assert false;
      }
    }
  }

  lemma NamesAreLevels(t: MessageType)
    ensures SlashFree(NameOf(t)) && NameOf(t) != ""
  {
  }

  lemma JoinInjective(a: seq<string>, b: seq<string>)
    requires a != [] && b != []
    requires (forall l <- a :: SlashFree(l)) && (forall l <- b :: SlashFree(l))
    ensures Join(a) == Join(b) <==> a == b
  {
    LevelsOfJoin(a);
    LevelsOfJoin(b);
  }

  /** The levels that retargeting keeps of the split topic. */
  function Kept(parts: seq<string>): seq<string>
    requires parts != []
  {
    if |parts| == 3 then parts[..2] else if |parts| == 4 then parts[..3] else parts[..1]
  }

  lemma RetargetLevels(topic: string, x: MessageType)
    requires x != Property && Split(topic) != [] && Split(topic)[0] != ""
    ensures Retarget(topic, x) == Ok(Join(Kept(Split(topic)) + [NameOf(x)]))
  {
    var parts := Split(topic);
    var p := PartsOf(topic).value.(mtype := Some(x));
    assert BuiltLevels(p) == Kept(parts) + [NameOf(x)];
  }

  /** Retargeting fails exactly for topics whose first level is empty. */
  lemma RetargetSucceeds(topic: string, x: MessageType)
    ensures Retarget(topic, x).Ok? <==> Levels(topic)[0] != ""
  {
    SplitMeaning(topic);
    if Split(topic) != [] {
      assert Split(topic)[0] == Levels(topic)[0];
    }
  }

  /** Retargeting replaces the last level and nothing else exactly for topics of two levels,
      and of three or four whose last level is not empty. */
  lemma RetargetExact(topic: string, x: MessageType)
    requires x != Property && Levels(topic)[0] != ""
    ensures var ls := Levels(topic);
            Retarget(topic, x) == Ok(WithLastLevel(topic, NameOf(x))) <==>
              |ls| == 2 || (3 <= |ls| <= 4 && ls[|ls| - 1] != "")
  {
    var ls, parts := Levels(topic), Split(topic);
    SplitMeaning(topic);
    assert parts[0] == ls[0];
    RetargetLevels(topic, x);
    LevelsAreSlashFree(topic);
    NamesAreLevels(x);
    var a, b := Kept(parts) + [NameOf(x)], ls[..|ls| - 1] + [NameOf(x)];
    assert forall l <- Kept(parts) :: l in ls;
    assert forall l <- ls[..|ls| - 1] :: l in ls;
    JoinInjective(a, b);
    if |ls| == 2 || (3 <= |ls| <= 4 && ls[|ls| - 1] != "") {
      assert Kept(parts) == ls[..|ls| - 1];
    } else {
      assert |a| != |b|;
    }
  }

  /** Turned into a command, a device plugin's status topic, or that of one of its devices,
      is matched by that plugin's filters once and by no other client's. */
  lemma RetargetReachesPlugin(conf: BusModel.Config, p: BusModel.PluginDetails, device: string,
          d: BusModel.PluginDetails)
    requires Routing.GoodConf(conf) && SlashFree(conf.prefix) && conf.commandTopic == NameOf(Command)
    requires Routing.GoodId(conf, p.className) && Routing.GoodId(conf, d.className)
    requires SlashFree(conf.willTopic) && conf.willTopic != "" && SlashFree(device)
    ensures var target := if device == "" then p.className else p.className + "/" + device;
            var topic := Retarget(conf.prefix + "/" + target + "/" + conf.willTopic, Command);
            && topic == Ok(BusModel.CommandTopic(conf, target))
            && Topics.MatchCount(Routing.AttachedConfig(conf, d).subTopicList, topic.value) ==
               if BusModel.IsDevice(d) && d.className == p.className then 1 else 0
  {
    var target := if device == "" then p.className else p.className + "/" + device;
    var status := conf.prefix + "/" + target + "/" + conf.willTopic;
    LevelsOfSlashFree(conf.prefix);
    LevelsOfSlashFree(p.className);
    LevelsOfSlashFree(device);
    LevelsOfSlashFree(conf.willTopic);
    LevelsOfConcat(p.className, device);
    LevelsOfConcat(conf.prefix, target);
    LevelsOfConcat(conf.prefix + "/" + target, conf.willTopic);
    var ls := Levels(status);
    assert ls == [conf.prefix] + Levels(target) + [conf.willTopic];
    RetargetExact(status, Command);
    Routing.CommandTopicLevels(conf, target);
    assert ls[..|ls| - 1] + [NameOf(Command)] == Levels(BusModel.CommandTopic(conf, target));
    JoinOfLevels(BusModel.CommandTopic(conf, target));
    Routing.CommandRouting(conf, target, d);
  }

  // -------------------------------------------------------------- round trip

  ghost predicate Printable(p: Parts) {
    && p.gatewayId.Some? && p.gatewayId.value != "" && SlashFree(p.gatewayId.value)
    && (p.pluginId.Some? ==> SlashFree(p.pluginId.value))
    && (p.deviceId.Some? ==> SlashFree(p.deviceId.value))
    && p.mtype.Some?
    && (p.mtype.value != Property ==> p.property.None?)
    && SlashFree(LastLevel(p)) && LastLevel(p) != ""
  }

  function TypeBuilt(p: Parts): TopicType {
    if p.deviceId.Some? then Sensor else if p.pluginId.Some? then Plugin else Gateway
  }

  lemma SplitOfBuilt(p: Parts)
    requires Printable(p)
    ensures Built(p).Ok? && Split(Built(p).value) == BuiltLevels(p)
  {
    LevelsOfJoin(BuiltLevels(p));
    SplitMeaning(Built(p).value);
  }

  /** What was put into a builder is read back from the topic. The topic type and the device
      come back exactly when a device was not set without a plugin, the message type exactly
      when a property does not carry the name of another type. */
  lemma BuildParseRoundTrip(p: Parts)
    requires Printable(p)
    ensures Built(p).Ok?
    ensures var topic := Built(p).value;
            && LevelAt(topic, 0) == Ok(p.gatewayId.value)
            && (p.pluginId.Some? ==> LevelAt(topic, 1) == Ok(p.pluginId.value))
            && (p.pluginId.Some? && p.deviceId.Some? ==> LevelAt(topic, 2) == Ok(p.deviceId.value))
    ensures TopicTypeFromString(Some(Built(p).value)) == Some(TypeBuilt(p)) <==> !(p.deviceId.Some? && p.pluginId.None?)
    ensures GetMessageType(Some(Built(p).value)) == p.mtype <==>
              !(p.mtype == Some(Property) && LastLevel(p) in {"command", "event", "status", "#"})
  {
    SplitOfBuilt(p);
    var parts := BuiltLevels(p);
    assert parts[|parts| - 1] == LastLevel(p) && |parts| > 1;
    NamesDiffer();
  }

  lemma NamesDiffer()
    ensures "command" != "event" && "command" != "status" && "command" != "property" && "command" != "#"
    ensures "event" != "status" && "event" != "property" && "event" != "#"
    ensures "status" != "property" && "status" != "#" && "property" != "#"
  {
    assert "command"[0] == 'c' && "event"[0] == 'e' && "status"[0] == 's' && "property"[0] == 'p' && "#"[0] == '#';
  }
}
