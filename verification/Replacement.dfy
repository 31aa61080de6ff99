/** Replacement of every occurrence of one string in another, left to right. */
module Replacement {

  predicate OccursAt(sub: string, s: string, i: int) {
    0 <= i <= |s| - |sub| && s[i..i + |sub|] == sub
  }

  predicate Occurs(sub: string, s: string) {
    exists i :: 0 <= i <= |s| - |sub| && OccursAt(sub, s, i)
  }

  function Replace(s: string, from: string, to: string): string
    requires |from| >= 1
  {
    if |s| < |from| then s
    else if s[..|from|] == from then to + Replace(s[|from|..], from, to)
    else [s[0]] + Replace(s[1..], from, to)
  }

  lemma {:induction false} ReplaceWithoutOccurrence(s: string, from: string, to: string)
    requires |from| >= 1 && !Occurs(from, s)
    ensures Replace(s, from, to) == s
  {
    if |s| >= |from| {
      assert !OccursAt(from, s, 0);
      forall i ensures !OccursAt(from, s[1..], i) {
        if OccursAt(from, s[1..], i) {
          assert s[1..][i..i + |from|] == s[i + 1..i + 1 + |from|];
          assert OccursAt(from, s, i + 1);
        }
      }
      ReplaceWithoutOccurrence(s[1..], from, to);
    }
  }

  /** A longer replacement never shortens the text and, where it fires, lengthens it. */
  lemma {:induction false} ReplaceGrows(s: string, from: string, to: string)
    requires 1 <= |from| < |to|
    ensures |Replace(s, from, to)| >= |s|
    ensures Occurs(from, s) ==> |Replace(s, from, to)| > |s|
    decreases |s|
  {
    if |s| >= |from| {
      if s[..|from|] == from {
        ReplaceGrows(s[|from|..], from, to);
      } else {
        ReplaceGrows(s[1..], from, to);
        if Occurs(from, s) {
          var i :| 0 <= i <= |s| - |from| && OccursAt(from, s, i);
          assert i != 0;
          assert s[1..][i - 1..i - 1 + |from|] == s[i..i + |from|];
          assert OccursAt(from, s[1..], i - 1);
        }
      }
    } else if Occurs(from, s) {
      assert false;
    }
  }

  /** How often the replacement fires: that depends on the text and the pattern alone. */
  function Fires(s: string, from: string): nat
    requires |from| >= 1
  {
    if |s| < |from| then 0
    else if s[..|from|] == from then 1 + Fires(s[|from|..], from)
    else Fires(s[1..], from)
  }

  lemma {:induction false} ReplaceLength(s: string, from: string, to: string)
    requires |from| >= 1
    ensures |Replace(s, from, to)| == |s| + Fires(s, from) * (|to| - |from|)
    decreases |s|
  {
    if |s| >= |from| {
      if s[..|from|] == from {
        ReplaceLength(s[|from|..], from, to);
        Distributes(Fires(s[|from|..], from), |to| - |from|);
      } else {
        ReplaceLength(s[1..], from, to);
      }
    }
  }

  lemma Distributes(n: nat, k: int)
    ensures (1 + n) * k == k + n * k
  {
  }

  /** A replacement brings in no character but those of what it puts in. */
  lemma {:induction false} ReplaceBringsIn(s: string, from: string, to: string, c: char)
    requires |from| >= 1 && c !in s && c !in to
    ensures c !in Replace(s, from, to)
    decreases |s|
  {
    if |s| >= |from| {
      if s[..|from|] == from {
        ReplaceBringsIn(s[|from|..], from, to, c);
      } else {
        ReplaceBringsIn(s[1..], from, to, c);
      }
    }
  }
}
