/** The three ways plugins take a topic apart again: `find` and `substr` with the
    conversion of `npos` to int that the source relies on, and a tokeniser. */
module TopicParsing {
  import opened Topics

  /** `find("/", from)` stored in an int: -1 stands for `npos`. */
  function FindSlash(s: string, from: nat): (r: int)
    ensures r == -1 || (from <= r < |s| && s[r] == '/')
    decreases |s| - from
  {
    if from >= |s| then -1
    else if s[from] == '/' then from
    else FindSlash(s, from + 1)
  }

  /** `substr(pos, count)`: a negative int becomes a huge size, so it reaches the end. */
  function Substr(s: string, pos: nat, count: int): string
    requires pos <= |s|
  {
    if count < 0 || pos + count > |s| then s[pos..] else s[pos..pos + count]
  }

  /** The serial the Fake and Nest plugins read from the topic of a command. */
  function SerialOf(source: string): string {
    var begin := FindSlash(source, 0) + 1;
    var begin2 := FindSlash(source, begin) + 1;
    var end := FindSlash(source, begin2);
    Substr(source, begin2, end - begin2)
  }

  /** The plugin name the cloud connector reads from the topic of an event. */
  function PluginOf(source: string): string {
    var begin := FindSlash(source, 0) + 1;
    var end := FindSlash(source, begin);
    Substr(source, begin, end - begin)
  }

  /** The tokeniser's parts; an empty string has none. */
  function Tokens(source: string): seq<string> {
    if source == "" then [] else Levels(source)
  }

  lemma {:induction false} FindSlashInTail(s: string, from: nat)
    requires from <= |s|
    ensures FindSlash(s, from) ==
            if FindSlash(s[from..], 0) == -1 then -1 else from + FindSlash(s[from..], 0)
    decreases |s| - from
  {
    if from < |s| && s[from] != '/' {
      FindSlashInTail(s, from + 1);
      FindSlashInTail(s[from..], 1);
      assert s[from..][1..] == s[from + 1..];
    }
  }

  /** The first slash ends the first level; behind it stand the other levels. */
  lemma {:induction false} FirstSlash(s: string)
    ensures var i := FindSlash(s, 0);
            if i == -1 then Levels(s) == [s]
            else Levels(s) == [s[..i]] + Levels(s[i + 1..])
  {
    var i := FindSlash(s, 0);
    if i == -1 {
      NoSlashFound(s, 0);
      assert s[0..] == s;
      LevelsOfSlashFree(s);
    } else {
      SlashIsFirst(s, 0);
      LevelsOfSlashFree(s[..i]);
      LevelsOfConcat(s[..i], s[i + 1..]);
      assert s == s[..i] + "/" + s[i + 1..];
    }
  }

  lemma {:induction false} NoSlashFound(s: string, from: nat)
    requires from <= |s| && FindSlash(s, from) == -1
    ensures SlashFree(s[from..])
    decreases |s| - from
  {
    if from < |s| {
      NoSlashFound(s, from + 1);
      assert s[from..] == [s[from]] + s[from + 1..];
    }
  }

  lemma {:induction false} SlashIsFirst(s: string, from: nat)
    requires FindSlash(s, from) != -1
    ensures SlashFree(s[from..FindSlash(s, from)])
    decreases |s| - from
  {
    if s[from] != '/' {
      SlashIsFirst(s, from + 1);
      var i := FindSlash(s, from);
      assert s[from..i] == [s[from]] + s[from + 1..i];
    }
  }

  /** One step of the search from `from`: it cuts out the first of the levels `ls`. */
  ghost predicate Cuts(s: string, from: nat, ls: seq<string>)
    requires from <= |s| && |ls| >= 1
  {
    var end := FindSlash(s, from);
    && Substr(s, from, end - from) == ls[0]
    && (end == -1 <==> |ls| == 1)
  }

  /** The levels behind that one start behind the slash that ended it. */
  lemma CutAt(s: string, from: nat)
    requires from <= |s|
    ensures Cuts(s, from, Levels(s[from..]))
    ensures var end := FindSlash(s, from);
            end != -1 ==> Levels(s[from..])[1..] == Levels(s[end + 1..])
  {
    var tail := s[from..];
    FirstSlash(tail);
    FindSlashInTail(s, from);
    var i := FindSlash(tail, 0);
    if i != -1 {
      assert tail[i + 1..] == s[from + i + 1..];
      assert tail[..i] == s[from..from + i];
    }
  }

  lemma CutFirst(s: string)
    ensures Cuts(s, 0, Levels(s))
    ensures var end := FindSlash(s, 0);
            end != -1 ==> Levels(s)[1..] == Levels(s[end + 1..])
  {
    CutAt(s, 0);
    assert s[0..] == s;
  }

  /** For every topic at all, `PluginOf` is the second level, or the whole of a topic of one level. */
  lemma PluginOfMeaning(source: string)
    ensures var ls := Levels(source);
            PluginOf(source) == if |ls| >= 2 then ls[1] else ls[0]
  {
    CutFirst(source);
    if FindSlash(source, 0) != -1 {
      CutAt(source, FindSlash(source, 0) + 1);
    }
    PluginOfCuts(source, Levels(source));
  }

  lemma PluginOfCuts(source: string, ls: seq<string>)
    requires |ls| >= 1 && Cuts(source, 0, ls)
    requires |ls| >= 2 ==> Cuts(source, FindSlash(source, 0) + 1, ls[1..])
    ensures PluginOf(source) == if |ls| >= 2 then ls[1] else ls[0]
  {
  }

  /** For every topic at all, `SerialOf` is the third level; with fewer levels the search
      wraps round to the start and yields the first. */
  lemma SerialOfMeaning(source: string)
    ensures var ls := Levels(source);
            SerialOf(source) == if |ls| >= 3 then ls[2] else ls[0]
  {
    var ls := Levels(source);
    var begin := FindSlash(source, 0) + 1;
    CutFirst(source);
    if |ls| >= 2 {
      CutAt(source, begin);
      assert Levels(source[begin..]) == ls[1..];
      if |ls| >= 3 {
        var begin2 := FindSlash(source, begin) + 1;
        CutAt(source, begin2);
        assert Levels(source[begin2..]) == ls[1..][1..];
        assert ls[1..][1..] == ls[2..];
        assert Cuts(source, begin2, ls[2..]);
      }
    }
    SerialOfCuts(source, ls);
  }

  lemma SerialOfCuts(source: string, ls: seq<string>)
    requires |ls| >= 1 && Cuts(source, 0, ls)
    requires |ls| >= 2 ==> Cuts(source, FindSlash(source, 0) + 1, ls[1..])
    requires |ls| >= 3 ==> Cuts(source, FindSlash(source, FindSlash(source, 0) + 1) + 1, ls[2..])
    ensures SerialOf(source) == if |ls| >= 3 then ls[2] else ls[0]
  {
  }

  /** What is printed as prefix/plugin/serial/kind is read back by all three parsers. */
  lemma ParsersUndoPrinter(prefix: string, plugin: string, serial: string, kind: string)
    requires SlashFree(prefix) && SlashFree(plugin) && SlashFree(serial) && SlashFree(kind)
    ensures var topic := prefix + "/" + plugin + "/" + serial + "/" + kind;
            && SerialOf(topic) == serial
            && PluginOf(topic) == plugin
            && Tokens(topic) == [prefix, plugin, serial, kind]
    ensures var topic := prefix + "/" + plugin + "/" + kind;
            && PluginOf(topic) == plugin
            && SerialOf(topic) == kind
            && Tokens(topic) == [prefix, plugin, kind]
  {
    LevelsOfSlashFree(prefix);
    LevelsOfSlashFree(plugin);
    LevelsOfSlashFree(serial);
    LevelsOfSlashFree(kind);
    LevelsOfConcat(prefix, plugin);
    LevelsOfConcat(prefix + "/" + plugin, serial);
    LevelsOfConcat(prefix + "/" + plugin + "/" + serial, kind);
    LevelsOfConcat(prefix + "/" + plugin, kind);
    SerialOfMeaning(prefix + "/" + plugin + "/" + serial + "/" + kind);
    PluginOfMeaning(prefix + "/" + plugin + "/" + serial + "/" + kind);
    SerialOfMeaning(prefix + "/" + plugin + "/" + kind);
    PluginOfMeaning(prefix + "/" + plugin + "/" + kind);
  }
}
