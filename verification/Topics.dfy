/** Topic names and topic filters of the bus, cut into levels at '/'.

    Matching follows sections 4.7.1.2, 4.7.1.3 and 4.7.2 of MQTT Version 3.1.1; a
    topic name that is published may hold no wildcard (section 3.3.2.1).
  */
module Topics {

  predicate SlashFree(s: string) {
    '/' !in s
  }

  predicate WildFree(s: string) {
    '+' !in s && '#' !in s
  }

  /** The levels of a topic: the parts between slashes, empty ones included. */
  function Levels(s: string): (r: seq<string>)
    ensures |r| >= 1
  {
    LevelsFrom("", s)
  }

  /** The levels of `s` when `part` has been read of the first of them. */
  function LevelsFrom(part: string, s: string): (r: seq<string>)
    ensures |r| >= 1
    decreases s
  {
    if s == "" then [part]
    else if s[0] == '/' then [part] + LevelsFrom("", s[1..])
    else LevelsFrom(part + [s[0]], s[1..])
  }

  function Join(levels: seq<string>): string
    requires |levels| >= 1
  {
    if |levels| == 1 then levels[0] else levels[0] + "/" + Join(levels[1..])
  }

  /** Two topics put together with a slash have the levels of both, in order. */
  lemma LevelsOfConcat(a: string, b: string)
    ensures Levels(a + "/" + b) == Levels(a) + Levels(b)
  {
    LevelsFromConcat("", a, b);
  }

  lemma {:induction false} LevelsFromConcat(part: string, a: string, b: string)
    ensures LevelsFrom(part, a + "/" + b) == LevelsFrom(part, a) + Levels(b)
    decreases a
  {
    var ab := a + "/" + b;
    if a == "" {
      assert ab[0] == '/' && ab[1..] == b;
    } else {
      assert ab[0] == a[0] && ab[1..] == a[1..] + "/" + b;
      LevelsFromConcat(if a[0] == '/' then "" else part + [a[0]], a[1..], b);
    }
  }

  lemma LevelsOfSlashFree(a: string)
    requires SlashFree(a)
    ensures Levels(a) == [a]
  {
    LevelsFromSlashFree("", a);
    assert "" + a == a;
  }

  lemma {:induction false} LevelsFromSlashFree(part: string, a: string)
    requires SlashFree(a)
    ensures LevelsFrom(part, a) == [part + a]
    decreases a
  {
    if a == "" {
      assert part + a == part;
    } else {
      assert a[0] in a;
      LevelsFromSlashFree(part + [a[0]], a[1..]);
      assert part + [a[0]] + a[1..] == part + a;
    }
  }

  lemma LevelsAreSlashFree(s: string)
    ensures forall l <- Levels(s) :: SlashFree(l)
  {
    LevelsFromAreSlashFree("", s);
  }

  lemma {:induction false} LevelsFromAreSlashFree(part: string, s: string)
    requires SlashFree(part)
    ensures forall l <- LevelsFrom(part, s) :: SlashFree(l)
    decreases s
  {
    if s != "" {
      LevelsFromAreSlashFree(if s[0] == '/' then "" else part + [s[0]], s[1..]);
    }
  }

  lemma {:induction false} LevelsOfJoin(levels: seq<string>)
    requires |levels| >= 1
    requires forall l <- levels :: SlashFree(l)
    ensures Levels(Join(levels)) == levels
  {
    LevelsOfSlashFree(levels[0]);
    if |levels| > 1 {
      LevelsOfJoin(levels[1..]);
      LevelsOfConcat(levels[0], Join(levels[1..]));
    }
  }

  lemma JoinOfLevels(s: string)
    ensures Join(Levels(s)) == s
  {
    JoinOfLevelsFrom("", s);
    assert "" + s == s;
  }

  lemma {:induction false} JoinOfLevelsFrom(part: string, s: string)
    ensures Join(LevelsFrom(part, s)) == part + s
    decreases s
  {
    if s == "" {
      assert part + s == part;
    } else {
      var next := if s[0] == '/' then "" else part + [s[0]];
      JoinOfLevelsFrom(next, s[1..]);
      assert s == [s[0]] + s[1..];
      if s[0] == '/' {
        assert ([part] + LevelsFrom("", s[1..]))[1..] == LevelsFrom("", s[1..]);
        assert "" + s[1..] == s[1..];
        assert part + "/" + s[1..] == part + s;
      } else {
        assert part + [s[0]] + s[1..] == part + s;
      }
    }
  }

  /** A string has no wildcard exactly when none of its levels has one. */
  lemma WildFreeByLevel(s: string)
    ensures WildFree(s) <==> forall l <- Levels(s) :: WildFree(l)
  {
    WildFreeFrom("", s);
  }

  lemma {:induction false} WildFreeFrom(part: string, s: string)
    ensures WildFree(part) && WildFree(s) <==> forall l <- LevelsFrom(part, s) :: WildFree(l)
    decreases s
  {
    if s != "" {
      assert s == [s[0]] + s[1..];
      if s[0] == '/' {
        WildFreeFrom("", s[1..]);
        assert forall l :: l in LevelsFrom(part, s) <==> l == part || l in LevelsFrom("", s[1..]);
      } else {
        WildFreeFrom(part + [s[0]], s[1..]);
      }
    }
  }

  // -------------------------------------------------------------- matching

  predicate MatchLevels(filter: seq<string>, topic: seq<string>) {
    if filter == [] then topic == []
    else if filter == ["#"] then true
    else topic != [] && (filter[0] == "+" || filter[0] == topic[0]) && MatchLevels(filter[1..], topic[1..])
  }

  /** A filter that begins with a wildcard does not match a name that begins with '$'. */
  predicate Matches(filter: string, topic: string) {
    && !(topic != "" && topic[0] == '$' && filter != "" && filter[0] in "+#")
    && MatchLevels(Levels(filter), Levels(topic))
  }

  predicate PublishableTopic(topic: string) {
    topic != "" && WildFree(topic)
  }

  /** How many of a client's filters match: a client with overlapping filters may be
      sent one copy for each of them (section 3.3.5). */
  function MatchCount(filters: seq<string>, topic: string): nat {
    if filters == [] then 0
    else (if Matches(filters[0], topic) then 1 else 0) + MatchCount(filters[1..], topic)
  }

  /** Wildcard-free levels shared at the front of filter and name play no part. */
  lemma {:induction false} MatchAfterCommonPrefix(p: seq<string>, f: seq<string>, t: seq<string>)
    requires forall l <- p :: WildFree(l)
    ensures MatchLevels(p + f, p + t) == MatchLevels(f, t)
  {
    if p == [] {
      assert p + f == f && p + t == t;
    } else {
      assert (p + f)[0] == p[0] && (p + t)[0] == p[0];
      assert WildFree(p[0]) && WildFree("") && p[0] != "#" by { assert !WildFree("#"); }
      assert (p + f)[1..] == p[1..] + f && (p + t)[1..] == p[1..] + t;
      MatchAfterCommonPrefix(p[1..], f, t);
    }
  }

  /** A filter without '#' matches only names with as many levels as it has. */
  lemma {:induction false} MatchSameLength(f: seq<string>, t: seq<string>)
    requires "#" !in f
    ensures MatchLevels(f, t) <==>
              |f| == |t| && forall i :: 0 <= i < |f| ==> f[i] == "+" || f[i] == t[i]
  {
    if f != [] && t != [] {
      MatchSameLength(f[1..], t[1..]);
      assert f[0] in f;
      if MatchLevels(f, t) {
        forall i | 0 <= i < |f| ensures f[i] == "+" || f[i] == t[i] {
          if i > 0 { assert f[i] == f[1..][i - 1] && t[i] == t[1..][i - 1]; }
        }
      }
    }
  }
}
