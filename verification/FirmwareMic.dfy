/** The microphone interrupt: tick counters of 32 bits that wrap round, and a pause of 100
    ticks after each accepted interrupt. */
module FirmwareMic {

  const WRAP: int := 0x1_0000_0000
  const PAUSE: int := 100

  function Tick(time: nat): (t: nat)
    ensures t < WRAP
  {
    time % WRAP
  }

  /** Subtraction of unsigned 32-bit numbers. */
  function Delta(last: nat, prev: nat): (d: nat)
    requires last < WRAP && prev < WRAP
    ensures d < WRAP
  {
    (last - prev) % WRAP
  }

  class MicPin {
    var last: nat
    var prev: nat

    ghost predicate Valid()
      reads this
    {
      last < WRAP && prev < WRAP
    }

    constructor ()
      ensures Valid() && last == 0 && prev == 0
    {
      last, prev := 0, 0;
    }

    method Handler(tick: nat) returns (accepted: bool)
      requires Valid() && tick < WRAP
      modifies this
      ensures Valid() && last == tick
      ensures accepted <==> Delta(tick, old(prev)) > PAUSE
      ensures accepted <==> (tick - old(prev)) % 0x1_0000_0000 > 100
      ensures prev == if accepted then tick else old(prev)
    {
      last := tick;
      var delta := (last - prev) % WRAP;
      if delta > PAUSE {
        prev := last;
        return true;
      }
      return false;
    }
  }

  /** The tick of the last accepted interrupt after interrupts at these true times. */
  function PrevAfter(times: seq<nat>, prev: nat): (p: nat)
    requires prev < WRAP
    ensures p < WRAP
  {
    if times == [] then prev
    else
      var before := PrevAfter(times[..|times| - 1], prev);
      var tick := Tick(times[|times| - 1]);
      if Delta(tick, before) > PAUSE then tick else before
  }

  function Accepted(times: seq<nat>, prev: nat): seq<nat>
    requires prev < WRAP
  {
    if times == [] then []
    else
      var time := times[|times| - 1];
      var before := times[..|times| - 1];
      Accepted(before, prev) + if Delta(Tick(time), PrevAfter(before, prev)) > PAUSE then [time] else []
  }

  ghost predicate Ordered(times: seq<nat>) {
    forall i, j :: 0 <= i < j < |times| ==> times[i] <= times[j]
  }

  /** The handler run over a sequence of interrupts computes these two functions. */
  method Run(mic: MicPin, times: seq<nat>) returns (accepted: seq<nat>)
    requires mic.Valid()
    modifies mic
    ensures mic.Valid() && mic.prev == PrevAfter(times, old(mic.prev))
    ensures accepted == Accepted(times, old(mic.prev))
  {
    accepted := [];
    for i := 0 to |times|
      invariant mic.Valid() && mic.prev == PrevAfter(times[..i], old(mic.prev))
      invariant accepted == Accepted(times[..i], old(mic.prev))
    {
      assert times[..i + 1][..i] == times[..i];
      var ok := mic.Handler(Tick(times[i]));
      if ok {
        accepted := accepted + [times[i]];
      }
    }
    assert times[..|times|] == times;
  }

  lemma DeltaOfTimes(a: nat, b: nat)
    requires a <= b
    ensures Delta(Tick(b), Tick(a)) == (b - a) % WRAP
    ensures Delta(Tick(b), Tick(a)) <= b - a
  {
    var qa, qb := a / WRAP, b / WRAP;
    assert a == qa * WRAP + Tick(a) && b == qb * WRAP + Tick(b);
    ModShift(Tick(b) - Tick(a), qb - qa);
    assert b - a == (Tick(b) - Tick(a)) + (qb - qa) * WRAP;
  }

  lemma ModShift(x: int, k: int)
    ensures (x + k * WRAP) % WRAP == x % WRAP
  {
    var q, r := x / WRAP, x % WRAP;
    assert x + k * WRAP == (q + k) * WRAP + r;
  }

  /** The tick kept is that of the last accepted interrupt, which is not in the future. */
  lemma {:induction false} PrevIsLastAccepted(times: seq<nat>, prev: nat)
    requires prev < WRAP
    ensures var a := Accepted(times, prev);
            PrevAfter(times, prev) == if a == [] then prev else Tick(a[|a| - 1])
    ensures Ordered(times) ==> forall t <- Accepted(times, prev) :: t <= times[|times| - 1]
    ensures Accepted(times, prev) != [] ==> times != []
  {
    if times != [] {
      var n := |times| - 1;
      PrevIsLastAccepted(times[..n], prev);
      if Ordered(times) {
        assert forall i :: 0 <= i < n ==> times[..n][i] == times[i];
        assert n > 0 ==> times[n - 1] <= times[n];
      }
    }
  }

  /** The rate bound: any two accepted interrupts lie at least 101 ticks apart for each step
      between them, however often the counter has wrapped round. */
  lemma {:induction false} AcceptedAreApart(times: seq<nat>, prev: nat, i: nat, j: nat)
    requires prev < WRAP && Ordered(times)
    requires i <= j < |Accepted(times, prev)|
    ensures Accepted(times, prev)[j] - Accepted(times, prev)[i] >= (PAUSE + 1) * (j - i)
  {
    var n := |times| - 1;
    var before := times[..n];
    var a, b := Accepted(times, prev), Accepted(before, prev);
    assert forall k :: 0 <= k < n ==> before[k] == times[k];
    if j < |b| {
      AcceptedAreApart(before, prev, i, j);
    } else if i < j {
      AcceptedAreApart(before, prev, i, j - 1);
      PrevIsLastAccepted(before, prev);
      assert b[j - 1] in b && b[j - 1] <= times[n - 1] <= times[n];
      DeltaOfTimes(b[j - 1], times[n]);
      assert a[j] == times[n];
    }
  }

  lemma AcceptedOfSnoc(times: seq<nat>, prev: nat, time: nat)
    requires prev < WRAP
    ensures Accepted(times + [time], prev) ==
            Accepted(times, prev) + if Delta(Tick(time), PrevAfter(times, prev)) > PAUSE then [time] else []
  {
    assert (times + [time])[..|times|] == times;
  }

  lemma DeltaFromInitial(prev: nat, time: nat)
    requires prev < WRAP
    ensures Delta(Tick(time), prev) == (time - prev) % WRAP
  {
    var q := time / WRAP;
    assert time == q * WRAP + Tick(time);
    ModShift(Tick(time) - prev, q);
  }

  lemma DeltaFromLast(times: seq<nat>, prev: nat, time: nat)
    requires prev < WRAP && Ordered(times + [time]) && Accepted(times, prev) != []
    ensures var a := Accepted(times, prev);
            Delta(Tick(time), PrevAfter(times, prev)) == (time - a[|a| - 1]) % WRAP
  {
    var a := Accepted(times, prev);
    PrevIsLastAccepted(times, prev);
    OrderedBySnoc(times, time);
    assert a[|a| - 1] in a;
    DeltaOfTimes(a[|a| - 1], time);
  }

  lemma OrderedBySnoc(times: seq<nat>, time: nat)
    requires Ordered(times + [time])
    ensures Ordered(times)
    ensures times != [] ==> times[|times| - 1] <= time
  {
    var all := times + [time];
    assert forall i :: 0 <= i < |times| ==> all[i] == times[i];
    assert all[|times|] == time;
  }

  /** What decides about one interrupt: the true time since the last accepted one, modulo the
      range of the counter. So a rejected one lies within 100 ticks of it modulo the range,
      and one that is far enough away is lost exactly when the counter has come round. */
  lemma DecisionByTrueTime(times: seq<nat>, prev: nat, time: nat)
    requires prev < WRAP && Ordered(times + [time])
    ensures var a := Accepted(times, prev);
            var since := if a == [] then time - prev else time - a[|a| - 1];
            Accepted(times + [time], prev) == a + if since % WRAP > PAUSE then [time] else []
  {
    AcceptedOfSnoc(times, prev, time);
    PrevIsLastAccepted(times, prev);
    if Accepted(times, prev) == [] {
      DeltaFromInitial(prev, time);
    } else {
      DeltaFromLast(times, prev, time);
    }
  }
}
