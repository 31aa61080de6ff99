/** The LED and the control task that turns it off. A command handler runs at a higher priority than
    the control task, so it is one step, and it may come between any two of its steps.
    Times are milliseconds.

    Scheduling is prompt: a task that can run does so before time goes on, and a delay ends
    when it is due. */
module FirmwareLed {

  const LED_ACTIVE := 0
  const LED_TIMEOUT := 15000
  const TASK_DELAY := 100

  /** Where the control task stands. */
  datatype Pc =
    | Delaying(until: nat)
    | Waiting
    | Checking
    | Sleeping(until: nat)
    | Writing

  /** `given` is the timer semaphore; `onSince` is when the LED was last turned on. */
  datatype Led = Led(now: nat, pin: int, value: int, timeOn: nat, given: bool, pc: Pc, onSince: nat)

  predicate Lit(s: Led) {
    s.pin == LED_ACTIVE
  }

  datatype Step =
    | On
    | Off
    | Elapse(ms: nat)
    | DelayOver
    | Take
    | Check
    | Write

  /** Time may go on by so much before a task has to run. */
  predicate MayElapse(s: Led, ms: nat) {
    match s.pc
    case Delaying(until) => s.now + ms <= until
    case Sleeping(until) => s.now + ms <= until
    case Waiting => ms == 0 || !s.given
    case Checking => ms == 0
    case Writing => ms == 0
  }

  predicate Enabled(s: Led, step: Step) {
    match step
    case On => true
    case Off => true
    case Elapse(ms) => MayElapse(s, ms)
    case DelayOver => (s.pc.Delaying? || s.pc.Sleeping?) && s.now >= s.pc.until
    case Take => s.pc.Waiting? && s.given
    case Check => s.pc.Checking?
    case Write => s.pc.Writing?
  }

  function Do(s: Led, step: Step): Led
    requires Enabled(s, step)
  {
    match step
    case On =>
      s.(pin := 0, value := 0, timeOn := s.now, given := true, onSince := if Lit(s) then s.onSince else s.now)
    case Off => s.(pin := 1, value := 1)
    case Elapse(ms) => s.(now := s.now + ms)
    case DelayOver => s.(pc := if s.pc.Delaying? then Waiting else Writing)
    case Take => s.(given := false, pc := Checking)
    case Check => s.(pc := if Lit(s) then Sleeping(s.now + LED_TIMEOUT) else Delaying(s.now + TASK_DELAY))
    case Write => s.(pin := 1, value := 1, pc := Delaying(s.now + TASK_DELAY))
  }

  /** After `user_init`: the pin is high, the semaphore empty, the control task in its first delay. */
  function Start(now: nat): Led {
    Led(now, 1, 1, 0, false, Delaying(now + TASK_DELAY), now)
  }

  ghost predicate IsRun(s: Led, steps: seq<Step>)
    decreases |steps|
  {
    steps == [] || (Enabled(s, steps[0]) && IsRun(Do(s, steps[0]), steps[1..]))
  }

  function After(s: Led, steps: seq<Step>): Led
    requires IsRun(s, steps)
    decreases |steps|
  {
    if steps == [] then s else After(Do(s, steps[0]), steps[1..])
  }

  // ------------------------------------------------------------------- class

  class LedBoard {
    var now: nat
    var pin: int
    var value: int
    var timeOn: nat
    var timerStart: bool
    var pc: Pc
    ghost var onSince: nat

    ghost function View(): Led
      reads this
    {
      Led(now, pin, value, timeOn, timerStart, pc, onSince)
    }

    constructor (now: nat)
      ensures View() == Start(now)
      ensures this.now == now && pin == 1 && value == 1 && timeOn == 0 && !timerStart && pc == Delaying(now + 100)
    {
      this.now, pin, value, timeOn, timerStart := now, 1, 1, 0, false;
      pc := Delaying(now + TASK_DELAY);
      onSince := now;
    }

    /** The decoded command, nothing when it was neither "on" nor "off". */
    method CommandHandler(on: bool, off: bool)
      modifies this`pin, this`value, this`timeOn, this`timerStart, this`onSince
      ensures View() == if on then Do(old(View()), On) else if off then Do(old(View()), Off) else old(View())
      ensures on ==> pin == 0 && value == 0 && timeOn == now && timerStart
      ensures !on && off ==> pin == 1 && value == 1 && timeOn == old(timeOn) && timerStart == old(timerStart)
      ensures !on && !off ==> pin == old(pin) && value == old(value) && timeOn == old(timeOn)
                              && timerStart == old(timerStart)
    {
      if on {
        if pin != LED_ACTIVE {
          onSince := now;
        }
        pin := 0;
        timeOn := now;
        value := 0;
        timerStart := true;
      } else if off {
        pin := 1;
        value := 1;
      }
    }

    /** One step of the control task's endless loop, when it can take one. */
    method ControlStep() returns (ran: bool)
      modifies this`pin, this`value, this`timerStart, this`pc
      ensures ran <==> Enabled(old(View()), DelayOver) || Enabled(old(View()), Take)
                       || Enabled(old(View()), Check) || Enabled(old(View()), Write)
      ensures Enabled(old(View()), DelayOver) ==> View() == Do(old(View()), DelayOver)
      ensures Enabled(old(View()), Take) ==> View() == Do(old(View()), Take)
      ensures Enabled(old(View()), Check) ==> View() == Do(old(View()), Check)
      ensures Enabled(old(View()), Write) ==> View() == Do(old(View()), Write)
      ensures !ran ==> View() == old(View())
      ensures match old(pc) {
                case Delaying(until) => ran == (now >= until) && (ran ==> pc == Waiting)
                case Waiting => ran == old(timerStart) && !timerStart && (ran ==> pc == Checking)
                case Checking => ran && pc == if pin == 0 then Sleeping(now + 15000) else Delaying(now + 100)
                case Sleeping(until) => ran == (now >= until) && (ran ==> pc == Writing)
                case Writing => ran && pc == Delaying(now + 100)
              }
      ensures !old(pc).Waiting? ==> timerStart == old(timerStart)
      ensures if old(pc).Writing? then pin == 1 && value == 1 else pin == old(pin) && value == old(value)
    {
      ran := true;
      match pc {
        case Delaying(until) =>
          if now >= until { pc := Waiting; } else { ran := false; }
        case Waiting =>
          if timerStart {
            timerStart := false;
            pc := Checking;
          } else {
            ran := false;
          }
        case Checking =>
          pc := if pin == LED_ACTIVE then Sleeping(now + LED_TIMEOUT) else Delaying(now + TASK_DELAY);
        case Sleeping(until) =>
          if now >= until { pc := Writing; } else { ran := false; }
        case Writing =>
          pin := 1;
          value := 1;
          pc := Delaying(now + TASK_DELAY);
      }
    }
  }

  // -------------------------------------------------------------- invariants

  /** While the LED is lit the control task will come for it, and it is never too late. */
  ghost predicate Guarded(s: Led) {
    && (s.pin == 0 || s.pin == 1) && s.value == s.pin
    && s.onSince <= s.now
    && (match s.pc
        case Delaying(until) => s.now <= until && until <= s.now + TASK_DELAY
        case Sleeping(until) => s.now <= until && until <= s.now + LED_TIMEOUT
        case _ => true)
    && (Lit(s) ==> s.given || s.pc.Checking? || s.pc.Sleeping? || s.pc.Writing?)
    && (Lit(s) ==>
        match s.pc
        case Delaying(until) => until <= s.onSince + TASK_DELAY
        case Sleeping(until) => until <= s.onSince + TASK_DELAY + LED_TIMEOUT
        case Waiting => s.now <= s.onSince + TASK_DELAY
        case Checking => s.now <= s.onSince + TASK_DELAY
        case Writing => s.now <= s.onSince + TASK_DELAY + LED_TIMEOUT)
  }

  lemma StepKeepsGuarded(s: Led, step: Step)
    requires Guarded(s) && Enabled(s, step)
    ensures Guarded(Do(s, step))
  {
  }

  lemma {:induction false} RunKeepsGuarded(s: Led, steps: seq<Step>)
    requires Guarded(s) && IsRun(s, steps)
    ensures Guarded(After(s, steps))
    decreases |steps|
  {
    if steps != [] {
      StepKeepsGuarded(s, steps[0]);
      RunKeepsGuarded(Do(s, steps[0]), steps[1..]);
    }
  }

  /** At every point of every run: a lit LED has the semaphore given or the control task on its
      way to turn it off, and it has not been on for more than 15100 ms. */
  lemma LedIsTurnedOff(start: nat, steps: seq<Step>)
    requires IsRun(Start(start), steps)
    ensures var s := After(Start(start), steps);
            Lit(s) ==>
              && (s.given || s.pc.Checking? || s.pc.Sleeping? || s.pc.Writing?)
              && s.now - s.onSince <= LED_TIMEOUT + TASK_DELAY
  {
    RunKeepsGuarded(Start(start), steps);
  }

  /** Of the steps that write to the pin the last one is an "on". */
  ghost predicate LastWriteIsOn(steps: seq<Step>) {
    exists i :: 0 <= i < |steps| && steps[i] == On && KeptOn(steps, i + 1)
  }

  /** No step from `k` on writes a 1 to the pin. */
  ghost predicate KeptOn(steps: seq<Step>, k: nat) {
    forall j :: k <= j < |steps| ==> steps[j] != Off && steps[j] != Write
  }

  lemma KeptOnInRest(steps: seq<Step>, k: nat)
    requires steps != []
    ensures KeptOn(steps[1..], k) <==> KeptOn(steps, k + 1)
  {
    assert forall j :: k + 1 <= j < |steps| ==> steps[j] == steps[1..][j - 1];
    assert forall j :: k <= j < |steps| - 1 ==> steps[1..][j] == steps[j + 1];
  }

  lemma LastWriteInRest(steps: seq<Step>)
    requires steps != []
    ensures LastWriteIsOn(steps) <==> LastWriteIsOn(steps[1..]) || (steps[0] == On && KeptOn(steps[1..], 0))
  {
    var rest := steps[1..];
    KeptOnInRest(steps, 0);
    if LastWriteIsOn(rest) {
      var i :| 0 <= i < |rest| && rest[i] == On && KeptOn(rest, i + 1);
      KeptOnInRest(steps, i + 1);
      assert steps[i + 1] == On;
    }
    if LastWriteIsOn(steps) {
      var i :| 0 <= i < |steps| && steps[i] == On && KeptOn(steps, i + 1);
      KeptOnInRest(steps, i);
      assert i > 0 ==> rest[i - 1] == On;
    }
  }

  lemma {:induction false} LitFrom(s: Led, steps: seq<Step>)
    requires IsRun(s, steps)
    ensures Lit(After(s, steps)) <==> LastWriteIsOn(steps) || (Lit(s) && KeptOn(steps, 0))
    decreases |steps|
  {
    if steps != [] {
      LitFrom(Do(s, steps[0]), steps[1..]);
      LastWriteInRest(steps);
      KeptOnInRest(steps, 0);
    }
  }

  /** After every run the LED is lit exactly when the last of the "on" and "off" commands and
      the control task's own turning off was an "on"; the value reported follows the pin. */
  lemma LitExactly(start: nat, steps: seq<Step>)
    requires IsRun(Start(start), steps)
    ensures var s := After(Start(start), steps);
            (Lit(s) <==> LastWriteIsOn(steps)) && s.value == s.pin == if Lit(s) then 0 else 1
  {
    LitFrom(Start(start), steps);
    RunKeepsGuarded(Start(start), steps);
  }

  /** `onSince` is what it is called: it moves only when a dark LED is turned on. */
  lemma OnSinceMeaning(s: Led, step: Step)
    requires Guarded(s) && Enabled(s, step)
    ensures var after := Do(s, step);
            && (Lit(s) && Lit(after) ==> after.onSince == s.onSince)
            && (!Lit(s) && Lit(after) ==> step == On && after.onSince == after.now == s.now)
  {
  }

  /** The control task never stops: it can run now, or when the time it waits for has come,
      or when the semaphore is given. */
  lemma TaskNeverStuck(s: Led)
    requires Guarded(s)
    ensures || (exists step :: step in {DelayOver, Take, Check, Write} && Enabled(s, step))
            || (s.pc.Waiting? && !s.given && !Lit(s))
            || (exists ms :: ms > 0 && MayElapse(s, ms))
  {
    match s.pc
    case Delaying(until) =>
      if s.now >= until { assert Enabled(s, DelayOver); } else { assert MayElapse(s, 1); }
    case Sleeping(until) =>
      if s.now >= until { assert Enabled(s, DelayOver); } else { assert MayElapse(s, 1); }
    case Waiting => if s.given { assert Enabled(s, Take); }
    case Checking => assert Enabled(s, Check);
    case Writing => assert Enabled(s, Write);
  }

  const LONGEST: seq<Step> := [On, Elapse(100), DelayOver, Take, Check, Elapse(15000)]

  /** The bound is met: an LED turned on as the control task begins its delay stays on for 15100 ms. */
  lemma BoundIsTight(start: nat)
    ensures IsRun(Start(start), LONGEST)
    ensures var s := After(Start(start), LONGEST);
            Lit(s) && s.now - s.onSince == LED_TIMEOUT + TASK_DELAY
  {
    var s0 := Start(start);
    var s1 := Do(s0, On);
    var s2 := Do(s1, Elapse(100));
    var s3 := Do(s2, DelayOver);
    var s4 := Do(s3, Take);
    var s5 := Do(s4, Check);
    var s6 := Do(s5, Elapse(15000));
    RunCons(s5, Elapse(15000), []);
    RunCons(s4, Check, [Elapse(15000)]);
    RunCons(s3, Take, [Check, Elapse(15000)]);
    RunCons(s2, DelayOver, [Take, Check, Elapse(15000)]);
    RunCons(s1, Elapse(100), [DelayOver, Take, Check, Elapse(15000)]);
    RunCons(s0, On, [Elapse(100), DelayOver, Take, Check, Elapse(15000)]);
    assert LONGEST == [On] + [Elapse(100), DelayOver, Take, Check, Elapse(15000)];
  }

  lemma RunCons(s: Led, step: Step, rest: seq<Step>)
    requires Enabled(s, step) && IsRun(Do(s, step), rest)
    ensures IsRun(s, [step] + rest) && After(s, [step] + rest) == After(Do(s, step), rest)
  {
    assert ([step] + rest)[1..] == rest;
  }
}
