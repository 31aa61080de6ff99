/** Which attached clients a published topic reaches, and how many copies each gets. */
module Routing {
  import opened Topics
  import opened BusModel

  /** Wildcard-free names, and kinds of topic that are single levels. */
  ghost predicate GoodNames(conf: Config) {
    && conf.prefix != "" && WildFree(conf.prefix)
    && SlashFree(conf.commandTopic) && WildFree(conf.commandTopic)
    && SlashFree(conf.occurrenceTopic) && WildFree(conf.occurrenceTopic)
  }

  /** Besides, commands and events have different names. */
  ghost predicate GoodConf(conf: Config) {
    GoodNames(conf) && conf.commandTopic != conf.occurrenceTopic
  }

  ghost predicate GoodId(conf: Config, id: string) {
    SlashFree(id) && WildFree(id) && id != conf.prefix
  }

  /** The client that `createIBusClient` followed by `setListener` makes. */
  function AttachedClient(conf: Config, d: PluginDetails): Client
    requires conf.prefix != ""
  {
    AfterSetListener(AfterSetConfig(NewClient(conf), conf), d)
  }

  function AttachedConfig(conf: Config, d: PluginDetails): Config
    requires conf.prefix != ""
  {
    AttachedClient(conf, d).cfg
  }

  lemma AttachedShape(conf: Config, d: PluginDetails)
    requires conf.prefix != "" && d.className != conf.prefix
    ensures var cfg := AttachedConfig(conf, d);
            && cfg.id == d.className && cfg.prefix == conf.prefix
            && cfg.commandTopic == conf.commandTopic && cfg.occurrenceTopic == conf.occurrenceTopic
            && cfg.willPayload == conf.willPayload
            && cfg.subTopicList ==
               if IsDevice(d) then DeviceFilters(cfg) else if IsComm(d) then CommFilters(cfg) else []
  {
  }

  /** A target names plugin `id` when it is that id, or that id with one level behind it. */
  predicate Addresses(target: string, id: string) {
    var ls := Levels(target);
    ls[0] == id && |ls| <= 2
  }

  // ------------------------------------------------- filters after the prefix

  /** Matching below a shared prefix, level by level. */
  lemma MatchBelowPrefix(prefix: string, filter: string, f: seq<string>, topic: string, t: seq<string>)
    requires WildFree(prefix) && "#" !in f
    requires prefix + "/" <= filter && Levels(filter) == Levels(prefix) + f
    requires Levels(topic) == Levels(prefix) + t
    ensures Matches(filter, topic) <==>
              |f| == |t| && forall i :: 0 <= i < |f| ==> f[i] == "+" || f[i] == t[i]
  {
    WildFreeByLevel(prefix);
    MatchAfterCommonPrefix(Levels(prefix), f, t);
    MatchSameLength(f, t);
    assert filter[0] == (prefix + "/")[0];
    if prefix != "" { assert prefix[0] in prefix; }
  }

  lemma LevelsOfThree(prefix: string, a: string, b: string)
    requires SlashFree(a) && SlashFree(b)
    ensures Levels(prefix + "/" + a + "/" + b) == Levels(prefix) + [a, b]
  {
    LevelsOfConcat(prefix, a);
    LevelsOfConcat(prefix + "/" + a, b);
    LevelsOfSlashFree(a);
    LevelsOfSlashFree(b);
  }

  lemma LevelsOfFour(prefix: string, a: string, b: string, c: string)
    requires SlashFree(a) && SlashFree(b) && SlashFree(c)
    ensures Levels(prefix + "/" + a + "/" + b + "/" + c) == Levels(prefix) + [a, b, c]
  {
    LevelsOfThree(prefix, a, b);
    LevelsOfConcat(prefix + "/" + a + "/" + b, c);
    LevelsOfSlashFree(c);
  }

  /** Both filters of a device plugin against any topic below the prefix. */
  lemma DeviceFiltersMatch(cfg: Config, topic: string, t: seq<string>)
    requires WildFree(cfg.prefix) && SlashFree(cfg.id) && WildFree(cfg.id)
    requires SlashFree(cfg.commandTopic) && WildFree(cfg.commandTopic)
    requires Levels(topic) == Levels(cfg.prefix) + t
    ensures MatchCount(DeviceFilters(cfg), topic) ==
            if 2 <= |t| <= 3 && t[0] == cfg.id && t[|t| - 1] == cfg.commandTopic then 1 else 0
  {
    assert !WildFree("#") && !WildFree("+");
    var f0, f1 := DeviceFilters(cfg)[0], DeviceFilters(cfg)[1];
    LevelsOfThree(cfg.prefix, cfg.id, cfg.commandTopic);
    MatchBelowPrefix(cfg.prefix, f0, [cfg.id, cfg.commandTopic], topic, t);
    assert f1 == cfg.prefix + "/" + cfg.id + "/" + "+" + "/" + cfg.commandTopic;
    LevelsOfFour(cfg.prefix, cfg.id, "+", cfg.commandTopic);
    MatchBelowPrefix(cfg.prefix, f1, [cfg.id, "+", cfg.commandTopic], topic, t);
    TwoFilters(DeviceFilters(cfg), topic);
  }

  /** Both filters of a comm plugin against any topic below the prefix. */
  lemma CommFiltersMatch(cfg: Config, topic: string, t: seq<string>)
    requires WildFree(cfg.prefix)
    requires SlashFree(cfg.occurrenceTopic) && WildFree(cfg.occurrenceTopic)
    requires Levels(topic) == Levels(cfg.prefix) + t
    ensures MatchCount(CommFilters(cfg), topic) ==
            if 2 <= |t| <= 3 && t[|t| - 1] == cfg.occurrenceTopic then 1 else 0
  {
    assert !WildFree("#") && !WildFree("+");
    var f0, f1 := CommFilters(cfg)[0], CommFilters(cfg)[1];
    assert f0 == cfg.prefix + "/" + "+" + "/" + cfg.occurrenceTopic;
    LevelsOfThree(cfg.prefix, "+", cfg.occurrenceTopic);
    MatchBelowPrefix(cfg.prefix, f0, ["+", cfg.occurrenceTopic], topic, t);
    assert f1 == cfg.prefix + "/" + "+" + "/" + "+" + "/" + cfg.occurrenceTopic;
    LevelsOfFour(cfg.prefix, "+", "+", cfg.occurrenceTopic);
    MatchBelowPrefix(cfg.prefix, f1, ["+", "+", cfg.occurrenceTopic], topic, t);
    TwoFilters(CommFilters(cfg), topic);
  }

  lemma TwoFilters(filters: seq<string>, topic: string)
    requires |filters| == 2
    ensures MatchCount(filters, topic) ==
            (if Matches(filters[0], topic) then 1 else 0) + (if Matches(filters[1], topic) then 1 else 0)
  {
    assert MatchCount(filters[1..], topic) == if Matches(filters[1], topic) then 1 else 0;
  }

  // -------------------------------------------------------- published topics

  lemma CommandTopicLevels(cfg: Config, target: string)
    requires SlashFree(cfg.commandTopic)
    ensures Levels(CommandTopic(cfg, target)) == Levels(cfg.prefix) + (Levels(target) + [cfg.commandTopic])
  {
    LevelsOfConcat(cfg.prefix, target);
    LevelsOfConcat(cfg.prefix + "/" + target, cfg.commandTopic);
    LevelsOfSlashFree(cfg.commandTopic);
  }

  function EventLevels(cfg: Config, sender: string): seq<string> {
    [cfg.id] + (if sender == "" then [] else Levels(sender)) + [cfg.occurrenceTopic]
  }

  lemma EventTopicLevels(cfg: Config, sender: string)
    requires SlashFree(cfg.occurrenceTopic) && SlashFree(cfg.id)
    ensures Levels(EventTopic(cfg, sender)) == Levels(cfg.prefix) + EventLevels(cfg, sender)
  {
    LevelsOfConcat(cfg.prefix, cfg.id);
    LevelsOfConcat(cfg.prefix + "/" + cfg.id, sender);
    LevelsOfSlashFree(cfg.id);
    LevelsOfSlashFree(cfg.occurrenceTopic);
    var own := cfg.prefix + "/" + cfg.id;
    LevelsOfConcat(if sender == "" then own else own + "/" + sender, cfg.occurrenceTopic);
  }

  // ------------------------------------------------------------ the theorems

  /** A command with any target reaches the device plugin that the target names, once, and
      no other client: not the other device plugins and no comm plugin. */
  lemma CommandRouting(conf: Config, target: string, d: PluginDetails)
    requires GoodConf(conf) && GoodId(conf, d.className)
    ensures MatchCount(AttachedConfig(conf, d).subTopicList, CommandTopic(conf, target)) ==
            if IsDevice(d) && Addresses(target, d.className) then 1 else 0
  {
    AttachedShape(conf, d);
    var cfg := AttachedConfig(conf, d);
    var topic := CommandTopic(conf, target);
    CommandTopicLevels(conf, target);
    var t := Levels(target) + [conf.commandTopic];
    if IsDevice(d) {
      DeviceFiltersMatch(cfg, topic, t);
    } else if IsComm(d) {
      CommFiltersMatch(cfg, topic, t);
    }
  }

  /** An event of plugin `p`, with or without a sender level, reaches every comm plugin once
      and no device plugin; a sender of several levels reaches nobody. */
  lemma EventRouting(conf: Config, p: PluginDetails, sender: string, d: PluginDetails)
    requires GoodConf(conf) && GoodId(conf, p.className) && GoodId(conf, d.className)
    ensures MatchCount(AttachedConfig(conf, d).subTopicList, EventTopic(AttachedConfig(conf, p), sender)) ==
            if IsComm(d) && |Levels(sender)| == 1 then 1 else 0
  {
    AttachedShape(conf, p);
    AttachedShape(conf, d);
    var cfg, from := AttachedConfig(conf, d), AttachedConfig(conf, p);
    var topic := EventTopic(from, sender);
    EventTopicLevels(from, sender);
    var t := EventLevels(from, sender);
    assert t[|t| - 1] == conf.occurrenceTopic;
    if IsDevice(d) {
      DeviceFiltersMatch(cfg, topic, t);
    } else if IsComm(d) {
      CommFiltersMatch(cfg, topic, t);
    }
  }

  /** The gateway's own client, which has no listener, is sent neither. */
  lemma RootReceivesNothing(conf: Config, target: string, p: PluginDetails, sender: string)
    requires GoodConf(conf) && GoodId(conf, p.className) && conf.subTopicList == []
    ensures var filters := AfterSetConfig(NewClient(conf), conf).cfg.subTopicList;
            && MatchCount(filters, CommandTopic(conf, target)) == 0
            && MatchCount(filters, EventTopic(AttachedConfig(conf, p), sender)) == 0
  {
    var filters := AfterSetConfig(NewClient(conf), conf).cfg.subTopicList;
    assert filters == RootFilters(conf);
    AttachedShape(conf, p);
    CommandTopicLevels(conf, target);
    EventTopicLevels(AttachedConfig(conf, p), sender);
    RootFiltersMatch(conf, CommandTopic(conf, target), Levels(target) + [conf.commandTopic]);
    RootFiltersMatch(conf, EventTopic(AttachedConfig(conf, p), sender), EventLevels(AttachedConfig(conf, p), sender));
  }

  /** The root's filters match the two kinds of topic right below the prefix, each once. */
  lemma RootFiltersMatch(conf: Config, topic: string, t: seq<string>)
    requires GoodNames(conf) && Levels(topic) == Levels(conf.prefix) + t
    ensures MatchCount(RootFilters(conf), topic) ==
            (if t == [conf.occurrenceTopic] then 1 else 0) + (if t == [conf.commandTopic] then 1 else 0)
  {
    assert !WildFree("#") && !WildFree("+");
    LevelsOfConcat(conf.prefix, conf.occurrenceTopic);
    LevelsOfConcat(conf.prefix, conf.commandTopic);
    LevelsOfSlashFree(conf.occurrenceTopic);
    LevelsOfSlashFree(conf.commandTopic);
    MatchBelowPrefix(conf.prefix, RootFilters(conf)[0], [conf.occurrenceTopic], topic, t);
    MatchBelowPrefix(conf.prefix, RootFilters(conf)[1], [conf.commandTopic], topic, t);
    TwoFilters(RootFilters(conf), topic);
  }

  // ---------------------------------------------------------- broadcasting

  /** Copies a client with these filters is sent of the published packets. */
  function Copies(filters: seq<string>, packets: seq<Packet>): nat {
    if packets == [] then 0
    else (if packets[0].Publish? then MatchCount(filters, packets[0].topic) else 0) + Copies(filters, packets[1..])
  }

  lemma {:induction false} CopiesOfConcat(filters: seq<string>, a: seq<Packet>, b: seq<Packet>)
    ensures Copies(filters, a + b) == Copies(filters, a) + Copies(filters, b)
  {
    if a == [] {
      assert a + b == b;
    } else {
      assert (a + b)[1..] == a[1..] + b;
      CopiesOfConcat(filters, a[1..], b);
    }
  }

  /** A broadcast from comm plugin `c` reaches device plugin `d` as often as the client list
      names it, and never the sender. */
  lemma {:induction false} BroadcastCopies(conf: Config, c: PluginDetails, msg: IBMessage, names: seq<string>,
          d: PluginDetails)
    requires GoodConf(conf) && GoodId(conf, c.className) && GoodId(conf, d.className)
    requires forall n <- names :: GoodId(conf, n)
    ensures Copies(AttachedConfig(conf, d).subTopicList, BroadcastPackets(AttachedConfig(conf, c), msg, names)) ==
            if IsDevice(d) && d.className != c.className then multiset(names)[d.className] else 0
  {
    var filters := AttachedConfig(conf, d).subTopicList;
    var cfg := AttachedConfig(conf, c);
    AttachedShape(conf, c);
    if names != [] {
      BroadcastCopies(conf, c, msg, names[1..], d);
      assert names == [names[0]] + names[1..] && names[0] in names;
      var topic := CommandTopic(conf, names[0]);
      var first := if names[0] != cfg.id then BusPackets(cfg, topic, msg) else [];
      CopiesOfConcat(filters, first, BroadcastPackets(cfg, msg, names[1..]));
      CommandRouting(conf, names[0], d);
      CommandPublishable(conf, names[0]);
      LevelsOfSlashFree(names[0]);
      assert Copies(filters, []) == 0;
    }
  }

  lemma CommandPublishable(conf: Config, target: string)
    requires GoodConf(conf)
    ensures PublishableTopic(CommandTopic(conf, target)) <==> WildFree(target)
  {
  }

  /** What happens to the client list: listeners attach, clients are destroyed. */
  datatype ListOp = Attach(name: string) | Destroy(name: string)

  function ClientsAfter(ops: seq<ListOp>): seq<string> {
    if ops == [] then []
    else
      var before := ClientsAfter(ops[..|ops| - 1]);
      match ops[|ops| - 1]
      case Attach(name) => before + [name]
      case Destroy(name) => RemoveAll(before, name)
  }

  /** Attached at some time and not destroyed since. */
  ghost predicate StillAttached(ops: seq<ListOp>, name: string) {
    exists i :: 0 <= i < |ops| && ops[i] == Attach(name) && NotDestroyedAfter(ops, i, name)
  }

  ghost predicate NotDestroyedAfter(ops: seq<ListOp>, i: int, name: string) {
    forall j :: 0 <= i < j < |ops| ==> ops[j] != Destroy(name)
  }

  /** No name is attached again while it is still attached. */
  ghost predicate DistinctListeners(ops: seq<ListOp>) {
    forall i :: 0 <= i < |ops| && ops[i].Attach? ==> !StillAttached(ops[..i], ops[i].name)
  }

  lemma {:induction false} RemoveAllCount(names: seq<string>, name: string, other: string)
    ensures multiset(RemoveAll(names, name))[other] == if other == name then 0 else multiset(names)[other]
  {
    if names != [] {
      assert names == [names[0]] + names[1..];
      RemoveAllCount(names[1..], name, other);
    }
  }

  lemma StillAttachedStep(ops: seq<ListOp>, name: string)
    requires ops != []
    ensures var last := ops[|ops| - 1];
            StillAttached(ops, name) <==>
              last == Attach(name) || (last != Destroy(name) && StillAttached(ops[..|ops| - 1], name))
  {
    var n := |ops| - 1;
    var before := ops[..n];
    if StillAttached(ops, name) {
      var i :| 0 <= i < |ops| && ops[i] == Attach(name) && NotDestroyedAfter(ops, i, name);
      if i < n {
        assert before[i] == Attach(name) && NotDestroyedAfter(before, i, name);
      }
    }
    if ops[n] == Attach(name) {
      assert NotDestroyedAfter(ops, n, name);
    } else if ops[n] != Destroy(name) && StillAttached(before, name) {
      var i :| 0 <= i < n && before[i] == Attach(name) && NotDestroyedAfter(before, i, name);
      assert ops[i] == Attach(name) && NotDestroyedAfter(ops, i, name);
    }
  }

  /** The list holds exactly the attached, not yet destroyed listeners, each once. */
  lemma {:induction false} ClientListIsAttached(ops: seq<ListOp>, name: string)
    requires DistinctListeners(ops)
    ensures multiset(ClientsAfter(ops))[name] == if StillAttached(ops, name) then 1 else 0
  {
    if ops != [] {
      var n := |ops| - 1;
      var before := ops[..n];
      assert forall i :: 0 <= i < n ==> before[i] == ops[i] && before[..i] == ops[..i];
      ClientListIsAttached(before, name);
      StillAttachedStep(ops, name);
      if ops[n].Destroy? {
        RemoveAllCount(ClientsAfter(before), ops[n].name, name);
      }
    }
  }

  /** A broadcast after any history reaches each attached device plugin but the sender once. */
  lemma BroadcastReachesEachOnce(conf: Config, ops: seq<ListOp>, c: PluginDetails, msg: IBMessage, d: PluginDetails)
    requires GoodConf(conf) && GoodId(conf, c.className) && GoodId(conf, d.className)
    requires DistinctListeners(ops)
    requires forall op <- ops :: op.Attach? ==> GoodId(conf, op.name)
    ensures Copies(AttachedConfig(conf, d).subTopicList,
                   BroadcastPackets(AttachedConfig(conf, c), msg, ClientsAfter(ops))) ==
            if IsDevice(d) && d.className != c.className && StillAttached(ops, d.className) then 1 else 0
  {
    ListedNamesGood(conf, ops);
    BroadcastCopies(conf, c, msg, ClientsAfter(ops), d);
    ClientListIsAttached(ops, d.className);
  }

  lemma {:induction false} ListedNamesGood(conf: Config, ops: seq<ListOp>)
    requires forall op <- ops :: op.Attach? ==> GoodId(conf, op.name)
    ensures forall n <- ClientsAfter(ops) :: GoodId(conf, n)
  {
    if ops != [] {
      ListedNamesGood(conf, ops[..|ops| - 1]);
      var before := ClientsAfter(ops[..|ops| - 1]);
      if ops[|ops| - 1].Destroy? {
        var gone := ops[|ops| - 1].name;
        forall n | n in RemoveAll(before, gone) ensures n in before {
          RemoveAllCount(before, gone, n);
        }
      } else {
        assert ops[|ops| - 1] in ops;
      }
    }
  }
}
