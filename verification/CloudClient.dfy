/** The cloud connector's own MQTT client: which of its subscriptions it takes for confirmed.

    A topic is noted under the client's own counter plus one; the library then overwrites the
    counter with the number it has given the request, and confirms under that number. */
module CloudClient {
  import opened Options

  datatype Book = Book(pending: map<int, string>, subscribed: seq<string>, count: int)

  function Note(b: Book, topic: string): Book {
    b.(pending := b.pending[b.count + 1 := topic], count := b.count + 1)
  }

  /** The calls from topic `k` on; `given` is the library's number for each, or an error. */
  function AfterSubscribe(b: Book, topics: seq<string>, given: nat -> Option<int>, k: nat): Book
    requires k <= |topics|
    decreases |topics| - k
  {
    if k == |topics| then b
    else if given(k).None? then Note(b, topics[k])
    else AfterSubscribe(Note(b, topics[k]).(count := given(k).value), topics, given, k + 1)
  }

  function AfterAck(b: Book, mid: int): Book {
    if mid in b.pending then b.(subscribed := b.subscribed + [b.pending[mid]], pending := b.pending - {mid}) else b
  }

  function AfterAcks(b: Book, acks: seq<int>): Book {
    if acks == [] then b else AfterAck(AfterAcks(b, acks[..|acks| - 1]), acks[|acks| - 1])
  }

  class MqttClient {
    var pendingTopics: map<int, string>
    var subscribedTopics: seq<string>
    var subMsgCount: int

    function View(): Book
      reads this
    {
      Book(pendingTopics, subscribedTopics, subMsgCount)
    }

    /** The counter starts with whatever was there: it is never set. */
    constructor (subMsgCount: int)
      ensures View() == Book(map[], [], subMsgCount)
    {
      pendingTopics, subscribedTopics := map[], [];
      this.subMsgCount := subMsgCount;
    }

    method DoSubscribe(topics: seq<string>, given: nat -> Option<int>) returns (ok: bool)
      modifies this
      ensures View() == AfterSubscribe(old(View()), topics, given, 0)
      ensures ok <==> forall i: nat :: i < |topics| ==> given(i).Some?
    {
      ok := true;
      var i := 0;
      while i < |topics|
        invariant 0 <= i <= |topics|
        invariant AfterSubscribe(View(), topics, given, i) == AfterSubscribe(old(View()), topics, given, 0)
        invariant ok && forall j: nat :: j < i ==> given(j).Some?
      {
        subMsgCount := subMsgCount + 1;
        pendingTopics := pendingTopics[subMsgCount := topics[i]];
        match given(i) {
          case None => return false;
          case Some(mid) => subMsgCount := mid;
        }
        i := i + 1;
      }
    }

    method OnSubscribe(mid: int)
      modifies this`pendingTopics, this`subscribedTopics
      ensures View() == AfterAck(old(View()), mid)
      ensures mid !in old(pendingTopics) ==>
                pendingTopics == old(pendingTopics) && subscribedTopics == old(subscribedTopics)
      ensures mid in old(pendingTopics) ==>
                && pendingTopics == old(pendingTopics) - {mid}
                && subscribedTopics == old(subscribedTopics) + [old(pendingTopics)[mid]]
    {
      if mid in pendingTopics {
        subscribedTopics := subscribedTopics + [pendingTopics[mid]];
        pendingTopics := pendingTopics - {mid};
      }
    }

    method IsTopicSubscribed(topic: string) returns (found: bool)
      ensures found <==> topic in subscribedTopics
    {
      for i := 0 to |subscribedTopics|
        invariant topic !in subscribedTopics[..i]
      {
        if subscribedTopics[i] == topic {
          return true;
        }
      }
      return false;
    }
  }

  /** The library numbers its requests one after the other. */
  ghost predicate Consecutive(given: nat -> Option<int>, first: int, n: nat) {
    forall i: nat :: i < n ==> given(i) == Some(first + i)
  }

  /** From the second topic on, the key is the library's number. */
  lemma {:induction false} PendingFrom(b: Book, topics: seq<string>, given: nat -> Option<int>, first: int, k: nat,
          x: int)
    requires k <= |topics| && Consecutive(given, first, |topics|) && b.count == first + k - 1
    ensures var after := AfterSubscribe(b, topics, given, k);
            && after.subscribed == b.subscribed
            && (x in after.pending <==> x in b.pending || first + k <= x < first + |topics|)
            && (first + k <= x < first + |topics| ==> after.pending[x] == topics[x - first])
            && (x in b.pending && !(first + k <= x < first + |topics|) ==> after.pending[x] == b.pending[x])
    decreases |topics| - k
  {
    if k < |topics| {
      PendingFrom(Note(b, topics[k]).(count := first + k), topics, given, first, k + 1, x);
    }
  }

  /** The first call that fails is the last: its topic is noted, and the later ones are not tried. */
  lemma {:induction false} FailureIsLast(b: Book, topics: seq<string>, given: nat -> Option<int>, k: nat, n: nat)
    requires k <= n < |topics| && given(n).None? && forall i: nat :: k <= i < n ==> given(i).Some?
    ensures var before := AfterSubscribe(b, topics[..n], given, k);
            AfterSubscribe(b, topics, given, k) ==
            Book(before.pending[before.count + 1 := topics[n]], before.subscribed, before.count + 1)
    decreases n - k
  {
    if k < n {
      FailureIsLast(Note(b, topics[k]).(count := given(k).value), topics, given, k + 1, n);
    }
  }

  /** A topic is taken for confirmed when a confirmation came under its key. */
  lemma {:induction false} ConfirmedMeaning(b: Book, acks: seq<int>, topic: string)
    ensures topic in AfterAcks(b, acks).subscribed <==>
              topic in b.subscribed || exists x :: x in acks && x in b.pending && b.pending[x] == topic
    ensures forall x :: x in AfterAcks(b, acks).pending <==> x in b.pending && x !in acks
    ensures forall x :: x in AfterAcks(b, acks).pending ==> AfterAcks(b, acks).pending[x] == b.pending[x]
  {
    if acks != [] {
      var front, last := acks[..|acks| - 1], acks[|acks| - 1];
      assert acks == front + [last];
      ConfirmedMeaning(b, front, topic);
    }
  }

  /** All the library's numbers have been confirmed, in any order, and no others. */
  ghost predicate AllConfirmed(acks: seq<int>, first: int, n: nat) {
    forall x :: x in acks <==> first <= x < first + n
  }

  /** What is noted after all subscriptions: the first topic under the client's own number,
      unless that is one of the library's, and each other one under the library's. */
  lemma NotedKeys(b: Book, topics: seq<string>, given: nat -> Option<int>, first: int, x: int)
    requires topics != [] && Consecutive(given, first, |topics|) && b.pending == map[]
    ensures var noted := AfterSubscribe(b, topics, given, 0);
            && noted.subscribed == b.subscribed
            && (x in noted.pending <==> x == b.count + 1 || first + 1 <= x < first + |topics|)
            && (first + 1 <= x < first + |topics| ==> noted.pending[x] == topics[x - first])
            && (x == b.count + 1 && !(first + 1 <= x < first + |topics|) ==> noted.pending[x] == topics[0])
  {
    var one := Note(b, topics[0]).(count := first);
    assert AfterSubscribe(b, topics, given, 0) == AfterSubscribe(one, topics, given, 1);
    PendingFrom(one, topics, given, first, 1, x);
  }

  /** With every subscription granted and confirmed, all topics but the first are taken for
      confirmed, and the first exactly when the counter was in step with the library. */
  lemma FirstTopicIff(b: Book, topics: seq<string>, given: nat -> Option<int>, first: int, acks: seq<int>)
    requires topics != [] && Consecutive(given, first, |topics|) && AllConfirmed(acks, first, |topics|)
    requires b.pending == map[] && topics[0] !in b.subscribed && topics[0] !in topics[1..]
    ensures var after := AfterAcks(AfterSubscribe(b, topics, given, 0), acks);
            && (topics[0] in after.subscribed <==> b.count + 1 == first)
            && forall i :: 1 <= i < |topics| ==> topics[i] in after.subscribed
  {
    FirstConfirmedIff(b, topics, given, first, acks);
    forall i | 1 <= i < |topics| ensures topics[i] in AfterAcks(AfterSubscribe(b, topics, given, 0), acks).subscribed {
      NotedKeys(b, topics, given, first, first + i);
      ConfirmedMeaning(AfterSubscribe(b, topics, given, 0), acks, topics[i]);
      assert first + i in acks;
    }
  }

  lemma FirstConfirmedIff(b: Book, topics: seq<string>, given: nat -> Option<int>, first: int, acks: seq<int>)
    requires topics != [] && Consecutive(given, first, |topics|) && AllConfirmed(acks, first, |topics|)
    requires b.pending == map[] && topics[0] !in b.subscribed && topics[0] !in topics[1..]
    ensures topics[0] in AfterAcks(AfterSubscribe(b, topics, given, 0), acks).subscribed <==> b.count + 1 == first
  {
    var noted := AfterSubscribe(b, topics, given, 0);
    ConfirmedMeaning(noted, acks, topics[0]);
    NotedKeys(b, topics, given, first, first);
    assert forall i :: 1 <= i < |topics| ==> topics[i] == topics[1..][i - 1];
    forall x | x in acks && x in noted.pending && noted.pending[x] == topics[0] ensures x == first == b.count + 1 {
      NotedKeys(b, topics, given, first, x);
    }
  }

  /** For instance when the counter happens to start at 0 and the status that the connect
      callback publishes before it subscribes has taken number 1. */
  lemma FirstTopicLost(first: string, second: string)
    requires first != second
    ensures var after := AfterAcks(AfterSubscribe(Book(map[], [], 0), [first, second], FROM_TWO, 0), [2, 3]);
            first !in after.subscribed && second in after.subscribed
  {
    var topics := [first, second];
    assert topics[1..] == [second];
    FirstTopicIff(Book(map[], [], 0), topics, FROM_TWO, 2, [2, 3]);
    assert topics[1] == second;
  }

  const FROM_TWO: nat -> Option<int> := i => Some(2 + i)
}
