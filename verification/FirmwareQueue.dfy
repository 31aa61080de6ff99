/** The firmware's publish queue and the buffers that go through it.

    The tasks share one unlocked `pub_msg`: each writes its two fields and then sends it. The
    two writes and the send are steps of their own here, and so is each piece of the drain
    loop, so that a task may be interrupted between any two of them. A buffer is named by its
    kind and the number of its allocation. */
module FirmwareQueue {
  import opened Options
  import opened Sequences

  const CAPACITY := 6

  datatype Kind = Message | Topic | Properties
  datatype Buffer = Buffer(kind: Kind, n: nat)

  /** What the queue carries: a message buffer and a topic buffer. */
  datatype Item = Item(msg: nat, topic: nat)

  /** `mqtt_task` with the handlers it calls, `gpioirq_task`, `gpioctrl_task`, `mqtt_conn_task`. */
  datatype Task = Network | Interrupt | Control | Status

  /** What a task has in its local variables, and how much of it `pub_msg` has been given. */
  datatype Stage = Made | HalfPut | Put
  datatype Hand = Hand(item: Item, properties: Option<nat>, stage: Stage)

  /** The item the network task has received and not yet freed. */
  datatype Held = Nothing | Received(item: Item) | Published(item: Item)

  /** `accepted` and `attempted` are the sends accepted and the publications attempted since
      the last queue reset. Lost buffers are told apart by how they were lost: the queue was
      full, it was reset under them, or a task gave up on a failed allocation. */
  datatype Firmware = Firmware(
    messages: nat,
    topics: nat,
    properties: nat,
    pubMsg: Option<nat>,
    pubTopic: Option<nat>,
    hands: map<Task, Hand>,
    queue: seq<Item>,
    held: Held,
    online: bool,
    irqAlive: bool,
    halted: bool,
    freed: seq<Buffer>,
    overflowed: seq<Item>,
    dropped: seq<Item>,
    stranded: seq<Buffer>,
    accepted: seq<Item>,
    attempted: seq<Item>)

  datatype Step =
    /** `execute_command` or `publish_dev_event_or_state`: which allocations succeed. */
    | Allocate(task: Task, msgOk: bool, topicOk: bool)
    /** `mqtt_conn_task` begins a device's status. */
    | AllocateStatus(propertiesOk: bool, msgOk: bool, topicOk: bool)
    /** `gpioirq_task` begins an interrupt; `known` says whether a device has the pin. */
    | AllocateIrq(msgOk: bool, topicOk: bool, known: bool)
    | PutMessage(task: Task)
    | PutTopic(task: Task)
    | Send(task: Task)
    | Receive
    | Publish(ok: bool)
    | FreeHeld
    | Disconnected
    | Reset

  function Start(): Firmware {
    Firmware(0, 0, 0, None, None, map[], [], Nothing, false, true, false, [], [], [], [], [], [])
  }

  function Bump(n: nat, ok: bool): nat {
    if ok then n + 1 else n
  }

  /** The buffers that a message and a topic allocation make: none for one that fails. */
  function MadeBy(s: Firmware, msgOk: bool, topicOk: bool): seq<Buffer> {
    (if msgOk then [Buffer(Message, s.messages)] else []) + (if topicOk then [Buffer(Topic, s.topics)] else [])
  }

  function Counted(s: Firmware, msgOk: bool, topicOk: bool): Firmware {
    s.(messages := Bump(s.messages, msgOk), topics := Bump(s.topics, topicOk))
  }

  function FreeBoth(s: Firmware, msgOk: bool, topicOk: bool): Firmware {
    Counted(s, msgOk, topicOk).(freed := s.freed + MadeBy(s, msgOk, topicOk))
  }

  function StrandBoth(s: Firmware, msgOk: bool, topicOk: bool): Firmware {
    Counted(s, msgOk, topicOk).(stranded := s.stranded + MadeBy(s, msgOk, topicOk))
  }

  /** A task has both buffers and has yet to hand them over. */
  function KeepBoth(s: Firmware, task: Task, properties: Option<nat>): Firmware {
    Counted(s, true, true).(hands := s.hands[task := Hand(Item(s.messages, s.topics), properties, Made)])
  }

  function DoAllocate(s: Firmware, task: Task, msgOk: bool, topicOk: bool): Firmware {
    if msgOk && topicOk then KeepBoth(s, task, None) else FreeBoth(s, msgOk, topicOk)
  }

  function PropertyBuffer(properties: Option<nat>): seq<Buffer> {
    if properties.Some? then [Buffer(Properties, properties.value)] else []
  }

  /** The buffer of the device's properties is allocated first and freed last, in every case. */
  function DoAllocateStatus(s: Firmware, propertiesOk: bool, msgOk: bool, topicOk: bool): Firmware {
    var own := if propertiesOk then Some(s.properties) else None;
    var made := s.(properties := Bump(s.properties, propertiesOk));
    if propertiesOk && msgOk && topicOk then KeepBoth(made, Status, own)
    else
      var tried := FreeBoth(made, msgOk, topicOk);
      tried.(freed := tried.freed + PropertyBuffer(own))
  }

  /** Only the message buffer is looked at: without it the interrupt task ends and a topic
      buffer is left behind; without a topic buffer a known pin makes it print to address zero. */
  function DoAllocateIrq(s: Firmware, msgOk: bool, topicOk: bool, known: bool): Firmware {
    if !msgOk then StrandBoth(s, msgOk, topicOk).(irqAlive := false)
    else if known && !topicOk then StrandBoth(s, msgOk, topicOk).(halted := true)
    else if known then KeepBoth(s, Interrupt, None)
    else FreeBoth(s, msgOk, topicOk)
  }

  /** `xQueueSend` without waiting. */
  function Enqueue(s: Firmware, item: Item): Firmware {
    if |s.queue| < CAPACITY then s.(queue := s.queue + [item], accepted := s.accepted + [item])
    else s.(overflowed := s.overflowed + [item])
  }

  /** What goes into the queue is what stands in `pub_msg`, not what the task has in hand. */
  function DoSend(s: Firmware, task: Task): Firmware
    requires task in s.hands && s.pubMsg.Some? && s.pubTopic.Some?
  {
    Enqueue(s.(hands := s.hands - {task}, freed := s.freed + PropertyBuffer(s.hands[task].properties)),
            Item(s.pubMsg.value, s.pubTopic.value))
  }

  function DoPutMessage(s: Firmware, task: Task): Firmware
    requires task in s.hands
  {
    var h := s.hands[task];
    s.(pubMsg := Some(h.item.msg), hands := s.hands[task := h.(stage := HalfPut)])
  }

  function DoPutTopic(s: Firmware, task: Task): Firmware
    requires task in s.hands
  {
    var h := s.hands[task];
    s.(pubTopic := Some(h.item.topic), hands := s.hands[task := h.(stage := Put)])
  }

  function DoReset(s: Firmware): Firmware {
    s.(online := true, dropped := s.dropped + s.queue, queue := [], accepted := [], attempted := [])
  }

  predicate AtStage(s: Firmware, task: Task, stage: Stage) {
    task in s.hands && s.hands[task].stage == stage
  }

  /** The network task is in its loop, between two items and in no handler. */
  predicate NetworkIdle(s: Firmware) {
    s.held.Nothing? && Network !in s.hands
  }

  predicate Enabled(s: Firmware, step: Step) {
    && !s.halted
    && match step
       case Allocate(task, _, _) =>
         task !in s.hands && !task.Interrupt? && (task.Network? ==> s.online && s.held.Nothing?)
       case AllocateStatus(_, _, _) => Status !in s.hands
       case AllocateIrq(_, _, _) => s.irqAlive && Interrupt !in s.hands
       case PutMessage(task) => AtStage(s, task, Made)
       case PutTopic(task) => AtStage(s, task, HalfPut)
       case Send(task) => AtStage(s, task, Put) && s.pubMsg.Some? && s.pubTopic.Some?
       case Receive => s.online && NetworkIdle(s) && s.queue != []
       case Publish(_) => s.held.Received?
       case FreeHeld => s.held.Published?
       case Disconnected => s.online && NetworkIdle(s)
       case Reset => !s.online && NetworkIdle(s)
  }

  function Do(s: Firmware, step: Step): Firmware
    requires Enabled(s, step)
  {
    match step
    case Allocate(task, msgOk, topicOk) => DoAllocate(s, task, msgOk, topicOk)
    case AllocateStatus(propertiesOk, msgOk, topicOk) => DoAllocateStatus(s, propertiesOk, msgOk, topicOk)
    case AllocateIrq(msgOk, topicOk, known) => DoAllocateIrq(s, msgOk, topicOk, known)
    case PutMessage(task) => DoPutMessage(s, task)
    case PutTopic(task) => DoPutTopic(s, task)
    case Send(task) => DoSend(s, task)
    case Receive => s.(held := Received(s.queue[0]), queue := s.queue[1..])
    case Publish(ok) => s.(held := Published(s.held.item), attempted := s.attempted + [s.held.item])
    case FreeHeld =>
      s.(held := Nothing, freed := s.freed + [Buffer(Message, s.held.item.msg), Buffer(Topic, s.held.item.topic)])
    case Disconnected => s.(online := false)
    case Reset => DoReset(s)
  }

  ghost predicate IsRun(s: Firmware, steps: seq<Step>)
    decreases |steps|, 0
  {
    steps == [] ||
    (IsRun(s, steps[..|steps| - 1]) && Enabled(After(s, steps[..|steps| - 1]), steps[|steps| - 1]))
  }

  function After(s: Firmware, steps: seq<Step>): Firmware
    requires IsRun(s, steps)
    decreases |steps|, 1
  {
    if steps == [] then s else Do(After(s, steps[..|steps| - 1]), steps[|steps| - 1])
  }

  lemma RunSnoc(s: Firmware, steps: seq<Step>, step: Step)
    requires IsRun(s, steps) && Enabled(After(s, steps), step)
    ensures IsRun(s, steps + [step]) && After(s, steps + [step]) == Do(After(s, steps), step)
  {
    assert (steps + [step])[..|steps|] == steps;
  }

  // ------------------------------------------------------------------ ledger

  function One(x: Buffer, b: Buffer): nat {
    if b == x then 1 else 0
  }

  function TimesIn(item: Item, b: Buffer): nat {
    One(Buffer(Message, item.msg), b) + One(Buffer(Topic, item.topic), b)
  }

  function ItemTimes(items: seq<Item>, b: Buffer): nat {
    if items == [] then 0 else ItemTimes(items[..|items| - 1], b) + TimesIn(items[|items| - 1], b)
  }

  function HeldTimes(h: Held, b: Buffer): nat {
    if h.Nothing? then 0 else TimesIn(h.item, b)
  }

  function PropertyTimes(properties: Option<nat>, b: Buffer): nat {
    if properties.Some? then One(Buffer(Properties, properties.value), b) else 0
  }

  function HandTimes(hands: map<Task, Hand>, task: Task, b: Buffer): nat {
    if task in hands then TimesIn(hands[task].item, b) + PropertyTimes(hands[task].properties, b) else 0
  }

  function HandsTimes(hands: map<Task, Hand>, b: Buffer): nat {
    HandTimes(hands, Network, b) + HandTimes(hands, Interrupt, b)
    + HandTimes(hands, Control, b) + HandTimes(hands, Status, b)
  }

  /** In how many places a buffer is: in a task's hand, queued, received, freed or lost in one
      of three ways. */
  function Places(s: Firmware, b: Buffer): nat {
    HandsTimes(s.hands, b) + ItemTimes(s.queue, b) + HeldTimes(s.held, b) + Count(s.freed, b)
    + ItemTimes(s.overflowed, b) + ItemTimes(s.dropped, b) + Count(s.stranded, b)
  }

  predicate Allocated(s: Firmware, b: Buffer) {
    match b.kind
    case Message => b.n < s.messages
    case Topic => b.n < s.topics
    case Properties => b.n < s.properties
  }

  /** A buffer that was allocated is in one place, one that was not in none. */
  ghost predicate Owned(s: Firmware, b: Buffer) {
    Places(s, b) == if Allocated(s, b) then 1 else 0
  }

  /** `after` has allocated the buffer and `before` had not. */
  function New(before: Firmware, after: Firmware, b: Buffer): nat {
    if Allocated(after, b) && !Allocated(before, b) then 1 else 0
  }

  lemma CountOfPair(x: seq<Buffer>, y: Buffer, z: Buffer, b: Buffer)
    ensures Count(x + [y, z], b) == Count(x, b) + One(y, b) + One(z, b)
  {
    CountOfSnoc(x, y, b);
    CountOfSnoc(x + [y], z, b);
    assert x + [y] + [z] == x + [y, z];
  }

  lemma CountOfProperties(x: seq<Buffer>, properties: Option<nat>, b: Buffer)
    ensures Count(x + PropertyBuffer(properties), b) == Count(x, b) + PropertyTimes(properties, b)
  {
    if properties.Some? {
      CountOfSnoc(x, Buffer(Properties, properties.value), b);
    } else {
      assert x + [] == x;
    }
  }

  lemma CountOfMade(s: Firmware, x: seq<Buffer>, msgOk: bool, topicOk: bool, b: Buffer)
    ensures Count(x + MadeBy(s, msgOk, topicOk), b) == Count(x, b) + New(s, Counted(s, msgOk, topicOk), b)
  {
    var m, t := Buffer(Message, s.messages), Buffer(Topic, s.topics);
    if msgOk && topicOk {
      CountOfPair(x, m, t, b);
      assert [m] + [t] == [m, t];
    } else if msgOk {
      CountOfSnoc(x, m, b);
      assert [m] + [] == [m];
    } else if topicOk {
      CountOfSnoc(x, t, b);
      assert [] + [t] == [t];
    } else {
      assert x + ([] + []) == x;
    }
  }

  lemma ItemTimesOfSnoc(items: seq<Item>, item: Item, b: Buffer)
    ensures ItemTimes(items + [item], b) == ItemTimes(items, b) + TimesIn(item, b)
  {
    assert (items + [item])[..|items|] == items;
  }

  lemma {:induction false} ItemTimesOfConcat(x: seq<Item>, y: seq<Item>, b: Buffer)
    ensures ItemTimes(x + y, b) == ItemTimes(x, b) + ItemTimes(y, b)
  {
    if y == [] {
      assert x + y == x;
    } else {
      var front, last := y[..|y| - 1], y[|y| - 1];
      ItemTimesOfConcat(x, front, b);
      ItemTimesOfSnoc(x + front, last, b);
      assert x + y == x + front + [last];
    }
  }

  lemma HandsWith(hands: map<Task, Hand>, task: Task, h: Hand, b: Buffer)
    requires task !in hands
    ensures HandsTimes(hands[task := h], b) == HandsTimes(hands, b) + TimesIn(h.item, b)
        + PropertyTimes(h.properties, b)
  {
  }

  lemma HandsWithout(hands: map<Task, Hand>, task: Task, b: Buffer)
    requires task in hands
    ensures HandsTimes(hands, b) ==
            HandsTimes(hands - {task}, b) + TimesIn(hands[task].item, b) + PropertyTimes(hands[task].properties, b)
  {
  }

  lemma HandsRestaged(hands: map<Task, Hand>, task: Task, stage: Stage, b: Buffer)
    requires task in hands
    ensures HandsTimes(hands[task := hands[task].(stage := stage)], b) == HandsTimes(hands, b)
  {
  }

  /** The item of a task that keeps both buffers is made of the two new ones. */
  lemma KeepBothPlaces(s: Firmware, task: Task, properties: Option<nat>, b: Buffer)
    requires task !in s.hands
    ensures Places(KeepBoth(s, task, properties), b) ==
            Places(s, b) + New(s, KeepBoth(s, task, properties), b) + PropertyTimes(properties, b)
  {
    HandsWith(s.hands, task, Hand(Item(s.messages, s.topics), properties, Made), b);
  }

  /** What was allocated beside a failed allocation is freed, once. */
  lemma FreeBothPlaces(s: Firmware, msgOk: bool, topicOk: bool, b: Buffer)
    ensures Places(FreeBoth(s, msgOk, topicOk), b) == Places(s, b) + New(s, FreeBoth(s, msgOk, topicOk), b)
  {
    CountOfMade(s, s.freed, msgOk, topicOk, b);
  }

  lemma StrandBothPlaces(s: Firmware, msgOk: bool, topicOk: bool, irqAlive: bool, halted: bool, b: Buffer)
    ensures var t := StrandBoth(s, msgOk, topicOk).(irqAlive := irqAlive, halted := halted);
            Places(t, b) == Places(s, b) + New(s, t, b)
  {
    CountOfMade(s, s.stranded, msgOk, topicOk, b);
  }

  /** A status that cannot be sent: the properties' buffer is freed behind the others. */
  lemma StatusFreed(s: Firmware, own: Option<nat>, msgOk: bool, topicOk: bool, b: Buffer)
    ensures var tried := FreeBoth(s, msgOk, topicOk);
            Places(tried.(freed := tried.freed + PropertyBuffer(own)), b) ==
            Places(s, b) + New(s, tried, b) + PropertyTimes(own, b)
  {
    FreeBothPlaces(s, msgOk, topicOk, b);
    CountOfProperties(FreeBoth(s, msgOk, topicOk).freed, own, b);
  }

  lemma StatusNew(s: Firmware, made: Firmware, t: Firmware, propertiesOk: bool, b: Buffer)
    requires made == s.(properties := Bump(s.properties, propertiesOk))
    requires t.properties == made.properties && s.messages <= t.messages && s.topics <= t.topics
    ensures New(s, t, b) == New(made, t, b) + PropertyTimes(if propertiesOk then Some(s.properties) else None, b)
  {
  }

  /** Of a status message's three buffers each that was allocated is in the task's hand, or freed. */
  lemma StatusPlaces(s: Firmware, propertiesOk: bool, msgOk: bool, topicOk: bool, b: Buffer)
    requires Status !in s.hands
    ensures var t := DoAllocateStatus(s, propertiesOk, msgOk, topicOk); Places(t, b) == Places(s, b) + New(s, t, b)
  {
    var own := if propertiesOk then Some(s.properties) else None;
    var made := s.(properties := Bump(s.properties, propertiesOk));
    var t := DoAllocateStatus(s, propertiesOk, msgOk, topicOk);
    StatusNew(s, made, t, propertiesOk, b);
    if propertiesOk && msgOk && topicOk {
      KeepBothPlaces(made, Status, own, b);
    } else {
      StatusFreed(made, own, msgOk, topicOk, b);
    }
  }

  /** What a send moves: the task's own buffers go out of its hand, those in `pub_msg` into the
      queue or the overflow. */
  lemma SendPlaces(s: Firmware, task: Task, b: Buffer)
    requires task in s.hands && s.pubMsg.Some? && s.pubTopic.Some?
    ensures Places(DoSend(s, task), b) + TimesIn(s.hands[task].item, b) ==
            Places(s, b) + TimesIn(Item(s.pubMsg.value, s.pubTopic.value), b)
  {
    var item, own := Item(s.pubMsg.value, s.pubTopic.value), s.hands[task].properties;
    var left := s.(hands := s.hands - {task}, freed := s.freed + PropertyBuffer(own));
    HandsWithout(s.hands, task, b);
    CountOfProperties(s.freed, own, b);
    assert Places(left, b) + TimesIn(s.hands[task].item, b) == Places(s, b);
    EnqueuePlaces(left, item, b);
  }

  lemma EnqueuePlaces(s: Firmware, item: Item, b: Buffer)
    ensures Places(Enqueue(s, item), b) == Places(s, b) + TimesIn(item, b)
  {
    var t := Enqueue(s, item);
    if |s.queue| < CAPACITY {
      ItemTimesOfSnoc(s.queue, item, b);
      assert t.queue == s.queue + [item] && t.overflowed == s.overflowed;
    } else {
      ItemTimesOfSnoc(s.overflowed, item, b);
      assert t.overflowed == s.overflowed + [item] && t.queue == s.queue;
    }
    assert t.hands == s.hands && t.held == s.held && t.freed == s.freed;
    assert t.dropped == s.dropped && t.stranded == s.stranded;
  }

  /** The steps of the network task's loop move items and lose none. */
  lemma LoopPlaces(s: Firmware, step: Step, b: Buffer)
    requires Enabled(s, step) && (step.Receive? || step.Publish? || step.FreeHeld? || step.Disconnected? || step.Reset?)
    ensures Places(Do(s, step), b) == Places(s, b)
  {
    if step.Receive? {
      var first, rest := s.queue[0], s.queue[1..];
      assert s.queue == [first] + rest;
      ItemTimesOfConcat([first], rest, b);
      ItemTimesOfSnoc([], first, b);
      assert [] + [first] == [first];
    } else if step.FreeHeld? {
      CountOfPair(s.freed, Buffer(Message, s.held.item.msg), Buffer(Topic, s.held.item.topic), b);
    } else if step.Reset? {
      ItemTimesOfConcat(s.dropped, s.queue, b);
    }
  }

  lemma PutPlaces(s: Firmware, step: Step, b: Buffer)
    requires Enabled(s, step) && (step.PutMessage? || step.PutTopic?)
    ensures Places(Do(s, step), b) == Places(s, b)
  {
    HandsRestaged(s.hands, step.task, if step.PutMessage? then HalfPut else Put, b);
  }

  lemma AllocatePlaces(s: Firmware, step: Step, b: Buffer)
    requires Enabled(s, step) && (step.Allocate? || step.AllocateStatus? || step.AllocateIrq?)
    ensures Places(Do(s, step), b) == Places(s, b) + New(s, Do(s, step), b)
  {
    match step
    case Allocate(task, msgOk, topicOk) =>
      KeepBothPlaces(s, task, None, b);
      FreeBothPlaces(s, msgOk, topicOk, b);
    case AllocateStatus(propertiesOk, msgOk, topicOk) => StatusPlaces(s, propertiesOk, msgOk, topicOk, b);
    case AllocateIrq(msgOk, topicOk, known) =>
      KeepBothPlaces(s, Interrupt, None, b);
      FreeBothPlaces(s, msgOk, topicOk, b);
      StrandBothPlaces(s, msgOk, topicOk, msgOk && s.irqAlive, msgOk || s.halted, b);
  }

  /** Every step but a send keeps what is in a place there, and puts what is new in one. */
  lemma StepPlaces(s: Firmware, step: Step, b: Buffer)
    requires Enabled(s, step) && !step.Send?
    ensures Places(Do(s, step), b) == Places(s, b) + New(s, Do(s, step), b)
  {
    match step
    case Allocate(_, _, _) => AllocatePlaces(s, step, b);
    case AllocateStatus(_, _, _) => AllocatePlaces(s, step, b);
    case AllocateIrq(_, _, _) => AllocatePlaces(s, step, b);
    case PutMessage(_) => PutPlaces(s, step, b);
    case PutTopic(_) => PutPlaces(s, step, b);
    case _ => LoopPlaces(s, step, b);
  }

  lemma StaysAllocated(s: Firmware, step: Step, b: Buffer)
    requires Enabled(s, step)
    ensures Allocated(s, b) ==> Allocated(Do(s, step), b)
  {
  }

  lemma SendAllocatesNothing(s: Firmware, task: Task, b: Buffer)
    requires Enabled(s, Send(task))
    ensures Allocated(Do(s, Send(task)), b) == Allocated(s, b)
  {
  }

  // ------------------------------------------------- who wrote to `pub_msg` last

  datatype Writers = Writers(msg: Option<Task>, topic: Option<Task>)

  function Wrote(w: Writers, step: Step): Writers {
    match step
    case PutMessage(task) => w.(msg := Some(task))
    case PutTopic(task) => w.(topic := Some(task))
    case _ => w
  }

  /** The tasks that wrote the two fields last. */
  function LastWriters(steps: seq<Step>): Writers {
    if steps == [] then Writers(None, None)
    else Wrote(LastWriters(steps[..|steps| - 1]), steps[|steps| - 1])
  }

  /** Between a task's writes to the fields of `pub_msg` and its send, no other task has
      written to the same field. */
  predicate Undisturbed(steps: seq<Step>) {
    steps == [] ||
    (var front, last := steps[..|steps| - 1], steps[|steps| - 1];
     && Undisturbed(front)
     && (last.Send? ==> LastWriters(front) == Writers(Some(last.task), Some(last.task))))
  }

  /** The part of the state that the writes and sends are about. */
  datatype Shared = Shared(
    messages: nat,
    topics: nat,
    pubMsg: Option<nat>,
    pubTopic: Option<nat>,
    hands: map<Task, Hand>)

  function SharedOf(s: Firmware): Shared {
    Shared(s.messages, s.topics, s.pubMsg, s.pubTopic, s.hands)
  }

  /** Two tasks never have the same buffer in hand, and `pub_msg` holds nothing of what is
      still to be allocated. */
  ghost predicate Apart(x: Shared) {
    && (forall t, u :: t in x.hands && u in x.hands && t != u ==>
          x.hands[t].item.msg != x.hands[u].item.msg && x.hands[t].item.topic != x.hands[u].item.topic)
    && (forall t :: t in x.hands ==> x.hands[t].item.msg < x.messages && x.hands[t].item.topic < x.topics)
    && (x.pubMsg.Some? ==> x.pubMsg.value < x.messages)
    && (x.pubTopic.Some? ==> x.pubTopic.value < x.topics)
  }

  /** A field of `pub_msg` holds what a task has put there exactly when the task wrote it last. */
  ghost predicate Aligned(x: Shared, w: Writers) {
    forall t :: t in x.hands ==>
      var h := x.hands[t];
      && (x.pubMsg == Some(h.item.msg) <==> h.stage != Made && w.msg == Some(t))
      && (x.pubTopic == Some(h.item.topic) <==> h.stage == Put && w.topic == Some(t))
  }

  ghost predicate Good(x: Shared, w: Writers) {
    Apart(x) && Aligned(x, w)
  }

  function Begun(x: Shared, task: Task, own: Option<nat>): Shared {
    x.(messages := x.messages + 1, topics := x.topics + 1,
       hands := x.hands[task := Hand(Item(x.messages, x.topics), own, Made)])
  }

  predicate JustCounted(x: Shared, y: Shared) {
    x.messages <= y.messages && x.topics <= y.topics && y == x.(messages := y.messages, topics := y.topics)
  }

  /** A failed attempt only counts; a send or an attempt ends with the task empty-handed. */
  lemma CountKeepsGood(x: Shared, messages: nat, topics: nat, w: Writers)
    requires Good(x, w) && x.messages <= messages && x.topics <= topics
    ensures Good(x.(messages := messages, topics := topics), w)
  {
  }

  lemma LeaveKeepsGood(x: Shared, task: Task, w: Writers)
    requires Good(x, w)
    ensures Good(x.(hands := x.hands - {task}), w)
  {
  }

  /** A task that begins has nothing in `pub_msg` yet, even if it wrote there last. */
  lemma BeginKeepsGood(x: Shared, task: Task, properties: Option<nat>, w: Writers)
    requires Good(x, w) && task !in x.hands
    ensures Good(Begun(x, task, properties), w)
  {
  }

  lemma PutMessageKeepsGood(x: Shared, task: Task, w: Writers)
    requires Good(x, w) && task in x.hands && x.hands[task].stage == Made
    ensures var h := x.hands[task];
            Good(x.(pubMsg := Some(h.item.msg), hands := x.hands[task := h.(stage := HalfPut)]), w.(msg := Some(task)))
  {
  }

  lemma PutTopicKeepsGood(x: Shared, task: Task, w: Writers)
    requires Good(x, w) && task in x.hands && x.hands[task].stage == HalfPut
    ensures var h := x.hands[task];
            Good(x.(pubTopic := Some(h.item.topic), hands := x.hands[task := h.(stage := Put)]),
                w.(topic := Some(task)))
  {
  }

  /** The task that a step is the beginning of a message of. */
  function Beginner(step: Step): Task {
    match step
    case Allocate(task, _, _) => task
    case AllocateStatus(_, _, _) => Status
    case _ => Interrupt
  }

  /** An allocation step either gives its task a new item or just counts. */
  lemma SharedAfterBegin(s: Firmware, step: Step)
    requires Enabled(s, step) && (step.Allocate? || step.AllocateStatus? || step.AllocateIrq?)
    ensures Beginner(step) !in s.hands
    ensures JustCounted(SharedOf(s), SharedOf(Do(s, step)))
            || exists own :: SharedOf(Do(s, step)) == Begun(SharedOf(s), Beginner(step), own)
  {
    match step
    case Allocate(task, msgOk, topicOk) =>
      assert msgOk && topicOk ==> SharedOf(Do(s, step)) == Begun(SharedOf(s), task, None);
    case AllocateStatus(propertiesOk, msgOk, topicOk) =>
      var own := Some(s.properties);
      assert propertiesOk && msgOk && topicOk ==> SharedOf(Do(s, step)) == Begun(SharedOf(s), Status, own);
    case AllocateIrq(msgOk, topicOk, known) =>
      assert msgOk && topicOk && known ==> SharedOf(Do(s, step)) == Begun(SharedOf(s), Interrupt, None);
  }

  lemma BeginStepKeepsGood(s: Firmware, step: Step, w: Writers)
    requires Good(SharedOf(s), w) && Enabled(s, step) && (step.Allocate? || step.AllocateStatus? || step.AllocateIrq?)
    ensures Good(SharedOf(Do(s, step)), w)
  {
    var x, y, task := SharedOf(s), SharedOf(Do(s, step)), Beginner(step);
    SharedAfterBegin(s, step);
    if JustCounted(x, y) {
      CountKeepsGood(x, y.messages, y.topics, w);
    } else {
      var own :| y == Begun(x, task, own);
      BeginKeepsGood(x, task, own, w);
    }
  }

  lemma SharedStays(s: Firmware, step: Step)
    requires Enabled(s, step)
    requires step.Receive? || step.Publish? || step.FreeHeld? || step.Disconnected? || step.Reset?
    ensures SharedOf(Do(s, step)) == SharedOf(s)
  {
  }

  lemma SharedAfterSend(s: Firmware, task: Task)
    requires Enabled(s, Send(task))
    ensures SharedOf(Do(s, Send(task))) == SharedOf(s).(hands := s.hands - {task})
  {
  }

  lemma StepKeepsGood(s: Firmware, step: Step, w: Writers)
    requires Good(SharedOf(s), w) && Enabled(s, step)
    ensures Good(SharedOf(Do(s, step)), Wrote(w, step))
  {
    match step
    case Allocate(_, _, _) => BeginStepKeepsGood(s, step, w);
    case AllocateStatus(_, _, _) => BeginStepKeepsGood(s, step, w);
    case AllocateIrq(_, _, _) => BeginStepKeepsGood(s, step, w);
    case PutMessage(task) => PutMessageKeepsGood(SharedOf(s), task, w);
    case PutTopic(task) => PutTopicKeepsGood(SharedOf(s), task, w);
    case Send(task) =>
      SharedAfterSend(s, task);
      LeaveKeepsGood(SharedOf(s), task, w);
    case _ => SharedStays(s, step);
  }

  lemma {:induction false} RunKeepsGood(steps: seq<Step>)
    requires IsRun(Start(), steps)
    ensures Good(SharedOf(After(Start(), steps)), LastWriters(steps))
    decreases |steps|
  {
    if steps != [] {
      var front, last := steps[..|steps| - 1], steps[|steps| - 1];
      RunKeepsGood(front);
      StepKeepsGood(After(Start(), front), last, LastWriters(front));
    }
  }

  // ------------------------------------------------------------- the theorems

  /** The send of a task that wrote both fields last takes its own item. */
  lemma SendKeepsOwned(s: Firmware, task: Task, w: Writers, b: Buffer)
    requires Owned(s, b) && Good(SharedOf(s), w) && Enabled(s, Send(task)) && w == Writers(Some(task), Some(task))
    ensures Owned(Do(s, Send(task)), b)
  {
    assert s.pubMsg == Some(s.hands[task].item.msg) && s.pubTopic == Some(s.hands[task].item.topic);
    SendPlaces(s, task, b);
    SendAllocatesNothing(s, task, b);
  }

  lemma StepKeepsOwned(s: Firmware, step: Step, b: Buffer)
    requires Owned(s, b) && Enabled(s, step) && !step.Send?
    ensures Owned(Do(s, step), b)
  {
    StepPlaces(s, step, b);
    StaysAllocated(s, step, b);
  }

  /** The ledger: whatever is done and in whatever order, as long as no task is disturbed, each
      buffer ever allocated is in exactly one place. */
  lemma {:induction false} Ledger(steps: seq<Step>, b: Buffer)
    requires IsRun(Start(), steps) && Undisturbed(steps)
    ensures Owned(After(Start(), steps), b)
    decreases |steps|
  {
    if steps != [] {
      var front, last := steps[..|steps| - 1], steps[|steps| - 1];
      Ledger(front, b);
      if last.Send? {
        RunKeepsGood(front);
        SendKeepsOwned(After(Start(), front), last.task, LastWriters(front), b);
      } else {
        StepKeepsOwned(After(Start(), front), last, b);
      }
    }
  }

  /** A buffer that is in no place, and that no task can send any more. */
  ghost predicate Gone(s: Firmware, b: Buffer) {
    Allocated(s, b) && Places(s, b) == 0 && !InPub(s, b)
  }

  predicate InPub(s: Firmware, b: Buffer) {
    (b.kind == Message && s.pubMsg == Some(b.n)) || (b.kind == Topic && s.pubTopic == Some(b.n))
  }

  lemma GoneAfterSend(s: Firmware, task: Task, b: Buffer)
    requires Gone(s, b) && Enabled(s, Send(task))
    ensures Gone(Do(s, Send(task)), b)
  {
    SendAllocatesNothing(s, task, b);
    SendPlaces(s, task, b);
    SharedAfterSend(s, task);
  }

  /** Only a task that has the buffer in its hand can put it. */
  lemma GoneAfterPut(s: Firmware, step: Step, b: Buffer)
    requires Gone(s, b) && Enabled(s, step) && (step.PutMessage? || step.PutTopic?)
    ensures !InPub(Do(s, step), b)
  {
    HandsWithout(s.hands, step.task, b);
    assert TimesIn(s.hands[step.task].item, b) == 0;
  }

  lemma GoneStays(s: Firmware, step: Step, b: Buffer)
    requires Gone(s, b) && Enabled(s, step)
    ensures Gone(Do(s, step), b)
  {
    if step.Send? {
      GoneAfterSend(s, step.task, b);
    } else {
      StaysAllocated(s, step, b);
      StepPlaces(s, step, b);
      if step.PutMessage? || step.PutTopic? {
        GoneAfterPut(s, step, b);
      } else {
        PubUntouched(s, step);
      }
    }
  }

  lemma PubUntouched(s: Firmware, step: Step)
    requires Enabled(s, step) && !step.PutMessage? && !step.PutTopic?
    ensures SharedOf(Do(s, step)).pubMsg == s.pubMsg && SharedOf(Do(s, step)).pubTopic == s.pubTopic
  {
    if step.Allocate? || step.AllocateStatus? || step.AllocateIrq? {
      SharedAfterBegin(s, step);
    } else if step.Send? {
      SharedAfterSend(s, step.task);
    } else {
      SharedStays(s, step);
    }
  }

  /** A send that takes another task's buffer loses the sender's own. */
  lemma WrongSendLoses(s: Firmware, task: Task, w: Writers, b: Buffer)
    requires Owned(s, b) && Good(SharedOf(s), w) && Enabled(s, Send(task))
    requires var item := s.hands[task].item;
             || (w.msg != Some(task) && b == Buffer(Message, item.msg))
             || (w.topic != Some(task) && b == Buffer(Topic, item.topic))
    ensures Gone(Do(s, Send(task)), b)
  {
    SendPlaces(s, task, b);
    HandsWithout(s.hands, task, b);
    SendAllocatesNothing(s, task, b);
  }

  /** After a disturbed run some buffer is gone for good. */
  lemma {:induction false} DisturbedLoses(steps: seq<Step>) returns (b: Buffer)
    requires IsRun(Start(), steps) && !Undisturbed(steps)
    ensures Gone(After(Start(), steps), b)
    decreases |steps|
  {
    var front, last := steps[..|steps| - 1], steps[|steps| - 1];
    var s := After(Start(), front);
    if !Undisturbed(front) {
      b := DisturbedLoses(front);
      GoneStays(s, last, b);
    } else {
      var w, item := LastWriters(front), s.hands[last.task].item;
      b := if w.msg != Some(last.task) then Buffer(Message, item.msg) else Buffer(Topic, item.topic);
      RunKeepsGood(front);
      Ledger(front, b);
      WrongSendLoses(s, last.task, w, b);
    }
  }

  /** The ledger holds exactly for the undisturbed runs. */
  lemma LedgerExactly(steps: seq<Step>)
    requires IsRun(Start(), steps)
    ensures Undisturbed(steps) <==> forall b :: Owned(After(Start(), steps), b)
  {
    if Undisturbed(steps) {
      forall b ensures Owned(After(Start(), steps), b) {
        Ledger(steps, b);
      }
    } else {
      var b := DisturbedLoses(steps);
      assert !Owned(After(Start(), steps), b);
    }
  }

  /** In an undisturbed run no buffer is freed twice, and what is about to be published has not
      been freed, lost or queued a second time. */
  lemma PublishedBuffersAreLive(steps: seq<Step>, ok: bool, b: Buffer)
    requires IsRun(Start(), steps) && Undisturbed(steps)
    ensures Count(After(Start(), steps).freed, b) <= 1
    ensures var s := After(Start(), steps);
            Enabled(s, Publish(ok)) && TimesIn(s.held.item, b) > 0 ==>
              && Allocated(s, b) && Count(s.freed, b) == 0 && ItemTimes(s.queue, b) == 0 && HandsTimes(s.hands, b) == 0
              && ItemTimes(s.overflowed, b) == 0 && ItemTimes(s.dropped, b) == 0 && Count(s.stranded, b) == 0
  {
    Ledger(steps, b);
  }

  /** The interrupt task has filled `pub_msg` when the control task, which has a higher
      priority, turns the LED off and sends its own message. */
  const TWO_TASKS: seq<Step> :=
    [AllocateIrq(true, true, true), PutMessage(Interrupt), PutTopic(Interrupt),
     Allocate(Control, true, true), PutMessage(Control), PutTopic(Control), Send(Control), Send(Interrupt)]

  lemma TwoTasksFirst(n: nat)
    requires n < 3
    ensures Enabled(TwoTasksAfter(n), TWO_TASKS[n]) && Do(TwoTasksAfter(n), TWO_TASKS[n]) == TwoTasksAfter(n + 1)
  {
  }

  lemma TwoTasksNext(n: nat)
    requires 3 <= n < 6
    ensures Enabled(TwoTasksAfter(n), TWO_TASKS[n]) && Do(TwoTasksAfter(n), TWO_TASKS[n]) == TwoTasksAfter(n + 1)
  {
  }

  lemma TwoTasksLast(n: nat)
    requires 6 <= n < 8
    ensures Enabled(TwoTasksAfter(n), TWO_TASKS[n]) && Do(TwoTasksAfter(n), TWO_TASKS[n]) == TwoTasksAfter(n + 1)
  {
  }

  lemma TwoTasksRun(n: nat)
    requires n <= 8
    ensures IsRun(Start(), TWO_TASKS[..n]) && After(Start(), TWO_TASKS[..n]) == TwoTasksAfter(n)
    decreases n
  {
    if n > 0 {
      var k := n - 1;
      TwoTasksRun(k);
      if k < 3 {
        TwoTasksFirst(k);
      } else if k < 6 {
        TwoTasksNext(k);
      } else {
        TwoTasksLast(k);
      }
      TwoTasksSnoc(k, TwoTasksAfter(k), TwoTasksAfter(n));
    }
  }

  lemma TwoTasksSnoc(k: nat, s: Firmware, t: Firmware)
    requires k < 8 && IsRun(Start(), TWO_TASKS[..k]) && After(Start(), TWO_TASKS[..k]) == s
    requires Enabled(s, TWO_TASKS[k]) && Do(s, TWO_TASKS[k]) == t
    ensures IsRun(Start(), TWO_TASKS[..k + 1]) && After(Start(), TWO_TASKS[..k + 1]) == t
  {
    assert TWO_TASKS[..k + 1] == TWO_TASKS[..k] + [TWO_TASKS[k]];
    RunSnoc(Start(), TWO_TASKS[..k], TWO_TASKS[k]);
  }

  /** The states of that run. */
  function TwoTasksAfter(n: nat): Firmware
    requires n <= 8
  {
    var mine, other := Item(0, 0), Item(1, 1);
    var s := Start();
    if n == 0 then s
    else if n <= 3 then
      s.(messages := 1, topics := 1, pubMsg := if n >= 2 then Some(0) else None,
          pubTopic := if n >= 3 then Some(0) else None,
         hands := map[Interrupt := Hand(mine, None, if n == 1 then Made else if n == 2 then HalfPut else Put)])
    else if n <= 6 then
      s.(messages := 2, topics := 2, pubMsg := Some(if n >= 5 then 1 else 0), pubTopic := Some(if n >= 6 then 1 else 0),
         hands := map[Interrupt := Hand(mine, None, Put),
                      Control := Hand(other, None, if n == 4 then Made else if n == 5 then HalfPut else Put)])
    else if n == 7 then
      s.(messages := 2, topics := 2, pubMsg := Some(1), pubTopic := Some(1), queue := [other], accepted := [other],
         hands := map[Interrupt := Hand(mine, None, Put)])
    else Clobbered()
  }

  function Clobbered(): Firmware {
    var twice := [Item(1, 1), Item(1, 1)];
    Firmware(2, 2, 0, Some(1), Some(1), map[], twice, Nothing, false, true, false, [], [], [], [], twice, [])
  }

  lemma TwiceQueued(item: Item, b: Buffer)
    ensures ItemTimes([item, item], b) == 2 * TimesIn(item, b)
  {
    ItemTimesOfSnoc([item], item, b);
    ItemTimesOfSnoc([], item, b);
    assert [] + [item] == [item] && [item] + [item] == [item, item];
  }

  /** The control task's buffers are in the queue twice, to be freed twice, and the interrupt
      task's are nowhere. */
  lemma ClobberedPlaces(b: Buffer)
    ensures Places(Clobbered(), b) == if b.n == 1 && b.kind != Properties then 2 else 0
  {
    var s := Clobbered();
    TwiceQueued(Item(1, 1), b);
    assert HandsTimes(s.hands, b) == 0 && HeldTimes(s.held, b) == 0 && Count(s.freed, b) == 0;
    assert ItemTimes(s.overflowed, b) == 0 && ItemTimes(s.dropped, b) == 0 && Count(s.stranded, b) == 0;
    assert ItemTimes(s.queue, b) == 2 * TimesIn(Item(1, 1), b);
  }

  lemma ClobberedIsDisturbed(steps: seq<Step>)
    requires IsRun(Start(), steps) && After(Start(), steps) == Clobbered()
    ensures !Undisturbed(steps)
  {
    var b := Buffer(Message, 1);
    ClobberedPlaces(b);
    if Undisturbed(steps) {
      Ledger(steps, b);
      assert false;
    }
  }

  /** That is a run, it is disturbed, and this is where it ends. */
  lemma SharedMessageClobbered(n: nat) returns (steps: seq<Step>)
    requires n == |TWO_TASKS|
    ensures steps == TWO_TASKS[..n] && IsRun(Start(), steps) && !Undisturbed(steps)
    ensures After(Start(), steps) == Clobbered()
  {
    TwoTasksRun(n);
    steps := TWO_TASKS[..n];
    assert TwoTasksAfter(n) == Clobbered();
    ClobberedIsDisturbed(steps);
  }

  // -------------------------------------------------------------------- FIFO

  /** The publications attempted since the last reset, then the item just received, then the
      queue are the accepted sends since that reset, in order; the queue keeps its bound. */
  ghost predicate InSequence(s: Firmware) {
    && s.accepted == s.attempted + (if s.held.Received? then [s.held.item] else []) + s.queue
    && |s.queue| <= CAPACITY
  }

  lemma SendKeepsOrder(s: Firmware, task: Task)
    requires InSequence(s) && Enabled(s, Send(task))
    ensures InSequence(Do(s, Send(task)))
  {
    var before := s.attempted + if s.held.Received? then [s.held.item] else [];
    var item := Item(s.pubMsg.value, s.pubTopic.value);
    assert before + s.queue + [item] == before + (s.queue + [item]);
  }

  lemma StepKeepsOrder(s: Firmware, step: Step)
    requires InSequence(s) && Enabled(s, step)
    ensures InSequence(Do(s, step))
  {
    match step
    case Receive => assert s.attempted + [s.queue[0]] + s.queue[1..] == s.attempted + [] + s.queue;
    case Publish(_) => assert s.attempted + [s.held.item] + [] == s.attempted + [s.held.item];
    case Send(task) => SendKeepsOrder(s, task);
    case _ =>
  }

  /** Disturbed or not: what the queue accepts is attempted in that order. */
  lemma {:induction false} FifoSinceReset(steps: seq<Step>)
    requires IsRun(Start(), steps)
    ensures InSequence(After(Start(), steps))
    decreases |steps|
  {
    if steps != [] {
      FifoSinceReset(steps[..|steps| - 1]);
      StepKeepsOrder(After(Start(), steps[..|steps| - 1]), steps[|steps| - 1]);
    }
  }

  // ------------------------------------------------------------------- losses

  /** The entries of the three lists of what was lost. */
  function Lost(s: Firmware): nat {
    2 * |s.overflowed| + 2 * |s.dropped| + |s.stranded|
  }

  /** How many entries one step adds: a full queue, a reset with items queued, an interrupt
      whose allocation fails. */
  function LossOf(s: Firmware, step: Step): nat {
    match step
    case Send(_) => if |s.queue| >= CAPACITY then 2 else 0
    case AllocateIrq(msgOk, topicOk, known) =>
      if !msgOk then (if topicOk then 1 else 0) else if known && !topicOk then 1 else 0
    case Reset => 2 * |s.queue|
    case _ => 0
  }

  function LossOfRun(s: Firmware, steps: seq<Step>): nat
    requires IsRun(s, steps)
    decreases |steps|
  {
    if steps == [] then 0
    else
      var front := steps[..|steps| - 1];
      LossOfRun(s, front) + LossOf(After(s, front), steps[|steps| - 1])
  }

  lemma StepLoses(s: Firmware, step: Step)
    requires Enabled(s, step)
    ensures Lost(Do(s, step)) == Lost(s) + LossOf(s, step)
  {
  }

  lemma {:induction false} LossesAddUp(s: Firmware, steps: seq<Step>)
    requires IsRun(s, steps)
    ensures Lost(After(s, steps)) == Lost(s) + LossOfRun(s, steps)
    decreases |steps|
  {
    if steps != [] {
      var front := steps[..|steps| - 1];
      LossesAddUp(s, front);
      StepLoses(After(s, front), steps[|steps| - 1]);
    }
  }

  // ----------------------------------------------------------- the drain loop

  function Buffers(items: seq<Item>): seq<Buffer> {
    if items == [] then []
    else
      var last := items[|items| - 1];
      Buffers(items[..|items| - 1]) + [Buffer(Message, last.msg), Buffer(Topic, last.topic)]
  }

  /** How many of the items the loop takes: it stops behind the first failed publication. */
  function DrainCount(items: seq<Item>, ok: nat -> bool, k: nat): (n: nat)
    ensures n <= |items|
    decreases |items|
  {
    if items == [] then 0 else if !ok(k) then 1 else 1 + DrainCount(items[1..], ok, k + 1)
  }

  /** The loop stops early only at a failure, and then that was the last one tried. */
  lemma {:induction false} DrainCountMeaning(items: seq<Item>, ok: nat -> bool, k: nat)
    ensures var n := DrainCount(items, ok, k);
            && (forall i :: k <= i < k + n - 1 ==> ok(i))
            && (n < |items| ==> n >= 1 && !ok(k + n - 1))
    decreases |items|
  {
    if items != [] && ok(k) {
      DrainCountMeaning(items[1..], ok, k + 1);
    }
  }

  /** What a pass of the loop that takes `n` items does. */
  function TakeMany(s: Firmware, n: nat): Firmware
    requires n <= |s.queue|
  {
    s.(queue := s.queue[n..], attempted := s.attempted + s.queue[..n], freed := s.freed + Buffers(s.queue[..n]))
  }

  /** The steps that a pass is made of. */
  function DrainSteps(n: nat, ok: nat -> bool): seq<Step> {
    if n == 0 then [] else DrainSteps(n - 1, ok) + [Receive] + [Publish(ok(n - 1))] + [FreeHeld]
  }

  lemma TakenOneMore(items: seq<Item>, k: nat, freed: seq<Buffer>, attempted: seq<Item>)
    requires k < |items|
    ensures items[k..][1..] == items[k + 1..] && items[k..][0] == items[k]
    ensures attempted + items[..k + 1] == attempted + items[..k] + [items[k]]
    ensures freed + Buffers(items[..k + 1]) ==
            freed + Buffers(items[..k]) + [Buffer(Message, items[k].msg), Buffer(Topic, items[k].topic)]
  {
    assert items[..k + 1] == items[..k] + [items[k]];
    assert items[..k + 1][..k] == items[..k];
  }

  lemma TakeNone(s: Firmware)
    ensures TakeMany(s, 0) == s
  {
    assert s.queue[0..] == s.queue && s.attempted + [] == s.attempted && s.freed + [] == s.freed;
  }

  /** One item received, published and freed. */
  function TakeOne(s: Firmware): Firmware
    requires s.queue != []
  {
    var item := s.queue[0];
    s.(queue := s.queue[1..], held := Nothing, attempted := s.attempted + [item],
       freed := s.freed + [Buffer(Message, item.msg), Buffer(Topic, item.topic)])
  }

  lemma TakeOneMore(s: Firmware, n: nat)
    requires NetworkIdle(s) && n < |s.queue|
    ensures TakeOne(TakeMany(s, n)) == TakeMany(s, n + 1)
  {
    TakenOneMore(s.queue, n, s.freed, s.attempted);
  }

  lemma TakeOneIsRun(s: Firmware, steps: seq<Step>, ok: bool)
    requires IsRun(s, steps) && Enabled(After(s, steps), Receive)
    ensures var more := steps + [Receive] + [Publish(ok)] + [FreeHeld];
            IsRun(s, more) && After(s, more) == TakeOne(After(s, steps))
  {
    RunSnoc(s, steps, Receive);
    RunSnoc(s, steps + [Receive], Publish(ok));
    RunSnoc(s, steps + [Receive] + [Publish(ok)], FreeHeld);
  }

  /** A pass of the loop is a run of those steps, and changes the state the same way. */
  lemma {:induction false} DrainIsRun(s: Firmware, n: nat, ok: nat -> bool)
    requires !s.halted && s.online && NetworkIdle(s) && n <= |s.queue|
    ensures IsRun(s, DrainSteps(n, ok)) && After(s, DrainSteps(n, ok)) == TakeMany(s, n)
  {
    if n == 0 {
      TakeNone(s);
    } else {
      DrainIsRun(s, n - 1, ok);
      TakeOneIsRun(s, DrainSteps(n - 1, ok), ok(n - 1));
      TakeOneMore(s, n - 1);
    }
  }

  // ------------------------------------------------------------ whole messages

  /** The steps of an event from its allocations to its send. */
  function EventSteps(task: Task): seq<Step> {
    [Allocate(task, true, true)] + [PutMessage(task)] + [PutTopic(task)] + [Send(task)]
  }

  /** Without an interruption they are one step: the two new buffers are in the queue or the
      overflow, and stand in `pub_msg`. */
  function AtOnce(s: Firmware): Firmware {
    Enqueue(Counted(s, true, true).(pubMsg := Some(s.messages), pubTopic := Some(s.topics)), Item(s.messages, s.topics))
  }

  lemma PutBoth(s: Firmware, task: Task)
    requires !s.halted && AtStage(s, task, Made)
    ensures Enabled(s, PutMessage(task)) && Enabled(Do(s, PutMessage(task)), PutTopic(task))
    ensures var item, t := s.hands[task].item, Do(Do(s, PutMessage(task)), PutTopic(task));
            && Enabled(t, Send(task)) && t.hands[task] == s.hands[task].(stage := Put)
            && t == s.(pubMsg := Some(item.msg), pubTopic := Some(item.topic),
                       hands := s.hands[task := s.hands[task].(stage := Put)])
  {
    var h := s.hands[task];
    assert s.hands[task := h.(stage := HalfPut)][task := h.(stage := Put)] == s.hands[task := h.(stage := Put)];
  }

  lemma EventSent(s: Firmware, made: Firmware, task: Task)
    requires Enabled(s, Allocate(task, true, true)) && made == Do(s, Allocate(task, true, true))
    ensures Enabled(made, PutMessage(task)) && Enabled(Do(made, PutMessage(task)), PutTopic(task))
    ensures Enabled(Do(Do(made, PutMessage(task)), PutTopic(task)), Send(task))
    ensures Do(Do(Do(made, PutMessage(task)), PutTopic(task)), Send(task)) == AtOnce(s)
  {
    PutBoth(made, task);
    assert made.hands[task := made.hands[task].(stage := Put)] - {task} == s.hands;
    assert s.freed + [] == s.freed;
  }

  /** An event that is not interrupted goes out in one piece. */
  lemma EventAtOnce(s: Firmware, task: Task)
    requires Enabled(s, Allocate(task, true, true))
    ensures IsRun(s, EventSteps(task)) && After(s, EventSteps(task)) == AtOnce(s)
  {
    var begin := Allocate(task, true, true);
    EventSent(s, Do(s, begin), task);
    assert [] + [begin] == [begin];
    RunSnoc(s, [], begin);
    RunSnoc(s, [begin], PutMessage(task));
    RunSnoc(s, [begin] + [PutMessage(task)], PutTopic(task));
    RunSnoc(s, [begin] + [PutMessage(task)] + [PutTopic(task)], Send(task));
  }

  // -------------------------------------------------------------------- class

  /** The tasks' shared state, with the local variables of each task in `hands` and those of
      the drain loop in `held`. The ledger fields are there for the specification only. */
  class Board {
    var messages: nat
    var topics: nat
    var properties: nat
    var pubMsg: Option<nat>
    var pubTopic: Option<nat>
    var hands: map<Task, Hand>
    var queue: seq<Item>
    var held: Held
    var online: bool
    var irqAlive: bool
    var halted: bool
    ghost var freed: seq<Buffer>
    ghost var overflowed: seq<Item>
    ghost var dropped: seq<Item>
    ghost var stranded: seq<Buffer>
    ghost var accepted: seq<Item>
    ghost var attempted: seq<Item>

    ghost function View(): Firmware
      reads this
    {
      Firmware(messages, topics, properties, pubMsg, pubTopic, hands, queue, held, online, irqAlive, halted,
               freed, overflowed, dropped, stranded, accepted, attempted)
    }

    constructor ()
      ensures View() == Start()
    {
      messages, topics, properties := 0, 0, 0;
      pubMsg, pubTopic, hands, queue, held := None, None, map[], [], Nothing;
      online, irqAlive, halted := false, true, false;
      freed, overflowed, dropped, stranded, accepted, attempted := [], [], [], [], [], [];
    }

    method MallocBoth(msgOk: bool, topicOk: bool) returns (msg: Option<nat>, topic: Option<nat>)
      modifies this`messages, this`topics
      ensures View() == Counted(old(View()), msgOk, topicOk)
      ensures msg == (if msgOk then Some(old(messages)) else None)
      ensures topic == (if topicOk then Some(old(topics)) else None)
    {
      msg, topic := None, None;
      if msgOk {
        msg := Some(messages);
        messages := messages + 1;
      }
      if topicOk {
        topic := Some(topics);
        topics := topics + 1;
      }
    }

    /** Freeing nothing does nothing. */
    method FreePair(msg: Option<nat>, topic: Option<nat>)
      modifies this`freed
      ensures View() == old(View()).(freed := old(freed)
                + ((if msg.Some? then [Buffer(Message, msg.value)] else [])
                   + (if topic.Some? then [Buffer(Topic, topic.value)] else [])))
    {
      freed := freed + ((if msg.Some? then [Buffer(Message, msg.value)] else [])
                        + (if topic.Some? then [Buffer(Topic, topic.value)] else []));
    }

    /** The first half of `execute_command`. */
    method Begin(task: Task, msgOk: bool, topicOk: bool)
      requires Enabled(View(), Allocate(task, msgOk, topicOk))
      modifies this`messages, this`topics, this`hands, this`freed
      ensures View() == DoAllocate(old(View()), task, msgOk, topicOk)
      ensures msgOk && topicOk ==>
                hands == old(hands)[task := Hand(Item(old(messages), old(topics)), None, Made)] && freed == old(freed)
      ensures !(msgOk && topicOk) ==>
                && hands == old(hands)
                && freed == old(freed) + if msgOk then [Buffer(Message, old(messages))]
                                         else if topicOk then [Buffer(Topic, old(topics))] else []
    {
      var msg, topic := MallocBoth(msgOk, topicOk);
      if msg.None? || topic.None? {
        FreePair(msg, topic);
      } else {
        hands := hands[task := Hand(Item(msg.value, topic.value), None, Made)];
      }
    }

    method BeginStatus(propertiesOk: bool, msgOk: bool, topicOk: bool)
      requires Enabled(View(), AllocateStatus(propertiesOk, msgOk, topicOk))
      modifies this`messages, this`topics, this`properties, this`hands, this`freed
      ensures View() == DoAllocateStatus(old(View()), propertiesOk, msgOk, topicOk)
      ensures propertiesOk && msgOk && topicOk ==>
                && hands == old(hands)[Status := Hand(Item(old(messages), old(topics)), Some(old(properties)), Made)]
                && freed == old(freed)
      ensures !(propertiesOk && msgOk && topicOk) ==> hands == old(hands)
    {
      var own: Option<nat> := None;
      if propertiesOk {
        own := Some(properties);
        properties := properties + 1;
      }
      var msg, topic := MallocBoth(msgOk, topicOk);
      if msg.None? || topic.None? || own.None? {
        FreePair(msg, topic);
        freed := freed + PropertyBuffer(own);
      } else {
        hands := hands[Status := Hand(Item(msg.value, topic.value), own, Made)];
      }
    }

    method BeginIrq(msgOk: bool, topicOk: bool, known: bool)
      requires Enabled(View(), AllocateIrq(msgOk, topicOk, known))
      modifies this`messages, this`topics, this`hands, this`freed, this`stranded, this`irqAlive, this`halted
      ensures View() == DoAllocateIrq(old(View()), msgOk, topicOk, known)
      ensures irqAlive == (old(irqAlive) && msgOk) && halted == (old(halted) || (msgOk && known && !topicOk))
      ensures hands == if msgOk && topicOk && known
                       then old(hands)[Interrupt := Hand(Item(old(messages), old(topics)), None, Made)]
                       else old(hands)
      ensures msgOk && !known ==> stranded == old(stranded)
      ensures !msgOk || known ==> freed == old(freed)
    {
      ghost var made := MadeBy(View(), msgOk, topicOk);
      var msg, topic := MallocBoth(msgOk, topicOk);
      if msg.None? {
        irqAlive := false;
        stranded := stranded + made;
      } else if known {
        if topic.None? {
          halted := true;
          stranded := stranded + made;
        } else {
          hands := hands[Interrupt := Hand(Item(msg.value, topic.value), None, Made)];
        }
      } else {
        FreePair(msg, topic);
      }
    }

    method WriteMessage(task: Task)
      requires Enabled(View(), PutMessage(task))
      modifies this`pubMsg, this`hands
      ensures View() == DoPutMessage(old(View()), task)
      ensures pubMsg == Some(old(hands)[task].item.msg) && task in hands
      ensures hands[task] == old(hands)[task].(stage := HalfPut)
    {
      pubMsg := Some(hands[task].item.msg);
      hands := hands[task := hands[task].(stage := HalfPut)];
    }

    method WriteTopic(task: Task)
      requires Enabled(View(), PutTopic(task))
      modifies this`pubTopic, this`hands
      ensures View() == DoPutTopic(old(View()), task)
      ensures pubTopic == Some(old(hands)[task].item.topic) && task in hands
      ensures hands[task] == old(hands)[task].(stage := Put)
    {
      pubTopic := Some(hands[task].item.topic);
      hands := hands[task := hands[task].(stage := Put)];
    }

    /** `xQueueSend` without waiting. */
    method QueueSend(item: Item) returns (ok: bool)
      modifies this`queue, this`accepted, this`overflowed
      ensures ok <==> |old(queue)| < 6
      ensures View() == Enqueue(old(View()), item)
      ensures queue == (if ok then old(queue) + [item] else old(queue))
      ensures overflowed == (if ok then old(overflowed) else old(overflowed) + [item])
    {
      ok := |queue| < CAPACITY;
      if ok {
        queue, accepted := queue + [item], accepted + [item];
      } else {
        overflowed := overflowed + [item];
      }
    }

    /** The second half: what stands in `pub_msg` is sent, and the properties' buffer freed. */
    method SendMessage(task: Task) returns (ok: bool)
      requires Enabled(View(), Send(task))
      modifies this`hands, this`freed, this`queue, this`accepted, this`overflowed
      ensures ok <==> |old(queue)| < 6
      ensures View() == DoSend(old(View()), task)
      ensures queue == (if ok then old(queue) + [Item(pubMsg.value, pubTopic.value)] else old(queue))
      ensures hands == old(hands) - {task}
    {
      ok := QueueSend(Item(pubMsg.value, pubTopic.value));
      freed := freed + PropertyBuffer(hands[task].properties);
      hands := hands - {task};
    }

    /** All of `execute_command`, when nothing interrupts it. */
    method ExecuteCommand(task: Task, msgOk: bool, topicOk: bool)
      requires Enabled(View(), Allocate(task, msgOk, topicOk))
      modifies this
      ensures View() == if msgOk && topicOk then AtOnce(old(View())) else FreeBoth(old(View()), msgOk, topicOk)
      ensures queue == if msgOk && topicOk && |old(queue)| < 6
                       then old(queue) + [Item(old(messages), old(topics))] else old(queue)
    {
      ghost var s := View();
      Begin(task, msgOk, topicOk);
      if task in hands {
        ghost var made := View();
        PutBoth(made, task);
        WriteMessage(task);
        WriteTopic(task);
        var ok := SendMessage(task);
        EventSent(s, made, task);
      }
    }

    method QueueReset()
      requires Enabled(View(), Reset)
      modifies this`dropped, this`queue, this`accepted, this`attempted, this`online
      ensures View() == DoReset(old(View()))
      ensures online && queue == [] && dropped == old(dropped) + old(queue)
    {
      dropped := dropped + queue;
      queue, accepted, attempted := [], [], [];
      online := true;
    }

    /** One round of the drain loop. */
    method DrainOne()
      requires Enabled(View(), Receive)
      modifies this`queue, this`held, this`attempted, this`freed
      ensures View() == TakeOne(old(View()))
      ensures queue == old(queue)[1..] && attempted == old(attempted) + [old(queue)[0]] && held.Nothing?
    {
      held := Received(queue[0]);
      queue := queue[1..];
      attempted := attempted + [held.item];
      held := Published(held.item);
      freed := freed + [Buffer(Message, held.item.msg), Buffer(Topic, held.item.topic)];
      held := Nothing;
    }

    /** One pass of the drain loop when nothing interrupts it; `ok` says how each publication
        ends. */
    method Drain(ok: nat -> bool)
      requires !halted && online && NetworkIdle(View())
      modifies this`queue, this`held, this`attempted, this`freed
      ensures View() == TakeMany(old(View()), DrainCount(old(queue), ok, 0))
      ensures var n := DrainCount(old(queue), ok, 0);
              queue == old(queue)[n..] && attempted == old(attempted) + old(queue)[..n] && held == old(held)
    {
      ghost var s := View();
      var k := 0;
      TakeNone(s);
      while queue != []
        invariant 0 <= k <= |s.queue|
        invariant DrainCount(s.queue, ok, 0) == k + DrainCount(s.queue[k..], ok, k)
        invariant View() == TakeMany(s, k)
        decreases |queue|
      {
        TakeOneMore(s, k);
        assert s.queue[k..][1..] == s.queue[k + 1..];
        DrainOne();
        k := k + 1;
        if !ok(k - 1) {
          break;
        }
      }
    }
  }
}
