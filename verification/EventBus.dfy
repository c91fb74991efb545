// The bus that hands published events to the subscribers' channels (api/handlers.go).
module EventBus {
  import opened Sse

  const CAPACITY := 100
  const ALL := "*"

  // `a` is what is left of `b` after dropping some of its elements.
  predicate Subsequence<T(==)>(a: seq<T>, b: seq<T>)
    decreases |b|
  {
    || a == []
    || (b != [] && a[|a| - 1] == b[|b| - 1] && Subsequence(a[..|a| - 1], b[..|b| - 1]))
    || (b != [] && Subsequence(a, b[..|b| - 1]))
  }

  datatype Published = Published(jobId: string, message: Message)

  // The events published from position `since` on that a subscriber to `topic` asked for.
  function Relevant(log: seq<Published>, since: nat, topic: string): seq<Message> {
    if |log| <= since then []
    else
      var last := log[|log| - 1];
      Relevant(log[..|log| - 1], since, topic) + if topic == ALL || topic == last.jobId then [last.message] else []
  }

  lemma RelevantGrows(log: seq<Published>, p: Published, since: nat, topic: string)
    requires since <= |log|
    ensures Relevant(log + [p], since, topic) ==
            Relevant(log, since, topic) + if topic == ALL || topic == p.jobId then [p.message] else []
  {
    assert (log + [p])[..|log|] == log;
  }

  lemma SubsequenceGrows<T>(a: seq<T>, b: seq<T>, x: T)
    requires Subsequence(a, b)
    ensures Subsequence(a, b + [x]) && Subsequence(a + [x], b + [x])
  {
    assert (b + [x])[..|b|] == b && (a + [x])[..|a|] == a;
  }

  // ----- Channels -----

  // What `times` sends that do not block leave in the queue.
  function Accepted(queue: seq<Message>, m: Message, times: nat): seq<Message> {
    if times == 0 then queue
    else
      var q := Accepted(queue, m, times - 1);
      if |q| < CAPACITY then q + [m] else q
  }

  class Chan {
    var queue: seq<Message>
    var closed: bool
    ghost const topic: string
    ghost const since: nat          // how much had been published when the channel was made
    ghost var consumed: seq<Message>
    ghost var everFull: bool

    ghost predicate Sound()
      reads this
    {
      |queue| <= CAPACITY && (|queue| == CAPACITY ==> everFull)
    }

    // Consumed and queued together are part of what was published, or all of it.
    ghost predicate Delivers(log: seq<Published>)
      reads this
    {
      && since <= |log|
      && Subsequence(consumed + queue, Relevant(log, since, topic))
      && (!everFull ==> consumed + queue == Relevant(log, since, topic))
    }

    constructor (ghost topic: string, ghost since: nat)
      ensures queue == [] && !closed && consumed == [] && !everFull && this.topic == topic && this.since == since
    {
      queue, closed := [], false;
      this.topic, this.since, consumed, everFull := topic, since, [], false;
    }

    // Sending on a closed channel panics.
    method Offer(m: Message)
      requires !closed && Sound()
      modifies this`queue, this`everFull
      ensures queue == Accepted(old(queue), m, 1) && Sound()
      ensures queue == if |old(queue)| < 100 then old(queue) + [m] else old(queue)
      ensures everFull == (old(everFull) || |queue| == CAPACITY)
    {
      if |queue| < CAPACITY {
        queue := queue + [m];
      }
      everFull := everFull || |queue| == CAPACITY;
    }

    method Receive() returns (m: Message)
      requires queue != [] && Sound()
      modifies this`queue, this`consumed
      ensures [m] + queue == old(queue) && consumed == old(consumed) + [m] && Sound()
    {
      m := queue[0];
      queue, consumed := queue[1..], consumed + [queue[0]];
    }

    // Closing a closed channel panics.
    method Close()
      requires !closed
      modifies this`closed
      ensures closed
    {
      closed := true;
    }
  }

  // ----- The bus -----

  function Times(topic: string, jobId: string): nat {
    (if topic == jobId then 1 else 0) + (if topic == ALL then 1 else 0)
  }

  predicate NoRepeats(list: seq<Chan>) {
    forall i, j :: 0 <= i < j < |list| ==> list[i] != list[j]
  }

  // The list without the first `c` in it.
  function Without(list: seq<Chan>, c: Chan): seq<Chan> {
    if list == [] then [] else if list[0] == c then list[1..] else [list[0]] + Without(list[1..], c)
  }

  lemma {:induction false} WithoutOne(list: seq<Chan>, c: Chan)
    requires NoRepeats(list)
    ensures forall k :: 0 <= k < |Without(list, c)| ==> Without(list, c)[k] in list && Without(list, c)[k] != c
    ensures forall x :: x in list && x != c ==> x in Without(list, c)
    ensures NoRepeats(Without(list, c))
  {
    if list != [] && list[0] != c {
      WithoutOne(list[1..], c);
      var rest := Without(list[1..], c);
      assert Without(list, c) == [list[0]] + rest;
      forall k | 0 <= k < |rest| ensures rest[k] != list[0] {
        assert rest[k] in rest && rest[k] in list[1..];
      }
    }
  }

  lemma OfferedTwice(queue: seq<Message>, m: Message)
    ensures Accepted(queue, m, 0) == queue
    ensures Accepted(queue, m, 1) == if |queue| < CAPACITY then queue + [m] else queue
    ensures Accepted(Accepted(queue, m, 1), m, 1) == Accepted(queue, m, 2)
  {
    assert Accepted(queue, m, 2 - 1) == Accepted(queue, m, 1);
  }

  // What one offer, or none, leaves in the queue.
  function Offered(queue: seq<Message>, m: Message, asked: bool): seq<Message> {
    if asked && |queue| < 100 then queue + [m] else queue
  }

  lemma OncePerTopic(queue: seq<Message>, m: Message, topic: string, jobId: string)
    ensures jobId != "*" ==> Accepted(queue, m, Times(topic, jobId)) == Offered(queue, m, topic == jobId || topic == "*")
    ensures jobId == "*" && topic != "*" ==> Accepted(queue, m, Times(topic, jobId)) == queue
  {
    OfferedTwice(queue, m);
  }

  class EventBus {
    var subscribers: map<string, seq<Chan>>
    ghost var log: seq<Published>
    ghost var listed: set<Chan>

    function Of(topic: string): seq<Chan>
      reads this
    {
      if topic in subscribers then subscribers[topic] else []
    }

    // Every listed channel is open and listed once, under what it subscribed to.
    ghost predicate Listing()
      reads this, listed
    {
      && (forall c :: c in listed ==> c in Of(c.topic) && !c.closed && c.Sound())
      && (forall t :: t in subscribers ==>
            NoRepeats(subscribers[t]) && forall c :: c in subscribers[t] ==> c in listed && c.topic == t)
    }

    ghost predicate Valid()
      reads this, listed
    {
      Listing() && forall c :: c in listed ==> c.Delivers(log)
    }

    constructor ()
      ensures Valid() && subscribers == map[] && log == [] && listed == {}
    {
      subscribers, log, listed := map[], [], {};
    }

    method Subscribe(jobId: string) returns (ch: Chan)
      requires Valid()
      modifies this`subscribers, this`listed
      ensures Valid() && fresh(ch) && ch.queue == [] && ch.since == |log| && listed == old(listed) + {ch}
      ensures subscribers == old(subscribers)[jobId := old(Of(jobId)) + [ch]]
    {
      ch := new Chan(jobId, |log|);
      var list := Of(jobId) + [ch];
      subscribers, listed := subscribers[jobId := list], listed + {ch};
    }

    method Unsubscribe(jobId: string, ch: Chan)
      requires Valid()
      modifies this`subscribers, this`listed, ch`closed
      ensures Valid() && ch !in Of(jobId) && listed == if ch in old(Of(jobId)) then old(listed) - {ch} else old(listed)
      ensures Of(jobId) == Without(old(Of(jobId)), ch) && forall t :: t != jobId ==> Of(t) == old(Of(t))
      ensures ch.closed == (old(ch.closed) || ch in old(Of(jobId)))
    {
      var list := Of(jobId);
      var i := 0;
      while i < |list| && list[i] != ch
        invariant 0 <= i <= |list| && ch !in list[..i]
        invariant Without(list, ch) == list[..i] + Without(list[i..], ch)
      {
        assert list[i..][1..] == list[i + 1..];
        i := i + 1;
      }
      if i < |list| {
        assert list[i..][1..] == list[i + 1..];
        Drop(jobId, list[..i] + list[i + 1..], ch);
      }
    }

    method Drop(jobId: string, kept: seq<Chan>, ch: Chan)
      requires Valid() && ch in Of(jobId) && kept == Without(Of(jobId), ch)
      modifies this`subscribers, this`listed, ch`closed
      ensures Valid() && subscribers == old(subscribers)[jobId := kept]
      ensures ch.closed && listed == old(listed) - {ch} && ch !in kept
    {
      WithoutOne(Of(jobId), ch);
      subscribers, listed := subscribers[jobId := kept], listed - {ch};
      ch.Close();
    }

    // The subscriber takes the next event from its channel.
    method Consume(ch: Chan) returns (m: Message)
      requires Valid() && ch in listed && ch.queue != []
      modifies ch`queue, ch`consumed
      ensures Valid() && [m] + ch.queue == old(ch.queue) && ch.consumed == old(ch.consumed) + [m]
    {
      m := ch.Receive();
      assert ch.consumed + ch.queue == old(ch.consumed + ch.queue);
      assert ch.Delivers(log);
    }

    method OfferAll(list: seq<Chan>, m: Message)
      requires forall c :: c in list ==> !c.closed && c.Sound()
      requires NoRepeats(list)
      modifies list
      ensures forall c :: c in list ==> TookOffers(c, m, 1)
    {
      for i := 0 to |list|
        invariant forall k :: 0 <= k < i ==> TookOffers(list[k], m, 1)
        invariant forall k :: i <= k < |list| ==> unchanged(list[k])
      {
        assert forall k :: 0 <= k < |list| && k != i ==> list[k] != list[i];
        list[i].Offer(m);
      }
    }

    // `times` more sends of `m`, and nothing else.
    twostate predicate TookOffers(c: Chan, m: Message, times: nat)
      reads c
    {
      && c.queue == Accepted(old(c.queue), m, times) && c.consumed == old(c.consumed) && c.closed == old(c.closed)
      && c.Sound() && (c.everFull ==> old(c.everFull) || |c.queue| == CAPACITY) && (old(c.everFull) ==> c.everFull)
    }

    // A subscriber under "*" hears of every job; nobody else's channel is touched. A channel takes an event
    // if it has fewer than 100 in its queue.
    method Publish(jobId: string, m: Message)
      requires Valid()
      modifies this`log, listed
      ensures Listing() && subscribers == old(subscribers) && log == old(log) + [Published(jobId, m)]
      ensures forall c :: c in listed ==> TookOffers(c, m, Times(c.topic, jobId))
      ensures jobId != "*" ==> forall c :: c in listed ==>
                c.queue == Offered(old(c.queue), m, c.topic == jobId || c.topic == "*")
      ensures jobId == "*" ==> forall c :: c in listed && c.topic != "*" ==> c.queue == old(c.queue)
      ensures jobId != ALL || Of(ALL) == [] ==> Valid()
    {
      OfferAll(Of(jobId), m);
      label Between:
      OfferAll(Of(ALL), m);
      forall c | c in listed
        ensures TookOffers(c, m, Times(c.topic, jobId))
        ensures jobId != "*" ==> c.queue == Offered(old(c.queue), m, c.topic == jobId || c.topic == "*")
        ensures jobId == "*" && c.topic != "*" ==> c.queue == old(c.queue)
      {
        assert c in Of(c.topic);
        OfferedTwice(old(c.queue), m);
        OncePerTopic(old(c.queue), m, c.topic, jobId);
        if c.topic == jobId {
          assert old@Between(c.queue) == Accepted(old(c.queue), m, 1);
        }
      }
      log := log + [Published(jobId, m)];
      if jobId != ALL || Of(ALL) == [] {
        forall c | c in listed ensures c.Delivers(log) {
          assert c in Of(c.topic) && TookOffers(c, m, Times(c.topic, jobId));
          DeliveryStep(old(c.consumed), old(c.queue), old(log), Published(jobId, m), c.since, c.topic);
        }
      }
    }
  }

  // One more event, offered once.
  lemma OneOffer(consumed: seq<Message>, queue: seq<Message>, told: seq<Message>, m: Message)
    requires Subsequence(consumed + queue, told)
    ensures Subsequence(consumed + Accepted(queue, m, 1), told + [m])
    ensures |queue| < CAPACITY && consumed + queue == told ==> consumed + Accepted(queue, m, 1) == told + [m]
  {
    OfferedTwice(queue, m);
    SubsequenceGrows(consumed + queue, told, m);
    assert consumed + (queue + [m]) == consumed + queue + [m];
  }

  // One more event published, and offered as often as it should be.
  lemma DeliveryStep(consumed: seq<Message>, queue: seq<Message>, log: seq<Published>, p: Published,
                     since: nat, topic: string)
    requires since <= |log| && Times(topic, p.jobId) <= 1
    requires Subsequence(consumed + queue, Relevant(log, since, topic))
    ensures var all, q := Relevant(log + [p], since, topic), Accepted(queue, p.message, Times(topic, p.jobId));
            && Subsequence(consumed + q, all)
            && (|queue| < CAPACITY && consumed + queue == Relevant(log, since, topic) ==> consumed + q == all)
  {
    RelevantGrows(log, p, since, topic);
    if Times(topic, p.jobId) == 1 {
      OneOffer(consumed, queue, Relevant(log, since, topic), p.message);
    } else {
      assert Relevant(log, since, topic) + [] == Relevant(log, since, topic);
    }
  }

  lemma {:induction false} NoLonger<T>(a: seq<T>, b: seq<T>)
    requires Subsequence(a, b)
    ensures |a| <= |b|
    decreases |b|
  {
    if a != [] {
      if a[|a| - 1] == b[|b| - 1] && Subsequence(a[..|a| - 1], b[..|b| - 1]) {
        NoLonger(a[..|a| - 1], b[..|b| - 1]);
      } else {
        NoLonger(a, b[..|b| - 1]);
      }
    }
  }

  lemma HeardTwice(consumed: seq<Message>, queue: seq<Message>, log: seq<Published>, m: Message, since: nat)
    requires since <= |log| && consumed + queue == Relevant(log, since, ALL) && |queue| + 2 <= CAPACITY
    ensures var after := consumed + Accepted(queue, m, 2);
            && after == consumed + queue + [m, m]
            && !Subsequence(after, Relevant(log + [Published(ALL, m)], since, ALL))
  {
    RelevantGrows(log, Published(ALL, m), since, ALL);
    OfferedTwice(queue, m);
    var after := consumed + Accepted(queue, m, 2);
    if Subsequence(after, Relevant(log + [Published(ALL, m)], since, ALL)) {
      NoLonger(after, Relevant(log + [Published(ALL, m)], since, ALL));
    }
  }

  lemma HeardOnce(consumed: seq<Message>, queue: seq<Message>, log: seq<Published>, m: Message, since: nat)
    requires since <= |log| && consumed + queue == Relevant(log, since, ALL)
    requires |queue| <= CAPACITY < |queue| + 2
    ensures Subsequence(consumed + Accepted(queue, m, 2), Relevant(log + [Published(ALL, m)], since, ALL))
  {
    var all := Relevant(log, since, ALL);
    RelevantGrows(log, Published(ALL, m), since, ALL);
    OfferedTwice(queue, m);
    SubsequenceOfItself(all);
    SubsequenceGrows(all, all, m);
    assert consumed + (queue + [m]) == consumed + queue + [m];
  }

  lemma {:induction false} SubsequenceOfItself<T>(a: seq<T>)
    ensures Subsequence(a, a)
  {
    if a != [] {
      SubsequenceOfItself(a[..|a| - 1]);
    }
  }

  // A subscriber that has missed nothing goes on to hold part of what was published, each event once, if
  // and only if the event is offered to it once, or it has no room for a second copy. An event is offered
  // twice only under the id "*" itself, to the subscribers to everything.
  lemma StarIsHeardTwice(consumed: seq<Message>, queue: seq<Message>, log: seq<Published>, p: Published,
                         since: nat, topic: string)
    requires since <= |log| && consumed + queue == Relevant(log, since, topic) && |queue| <= CAPACITY
    ensures Times(topic, p.jobId) == 2 <==> topic == p.jobId == ALL
    ensures Subsequence(consumed + Accepted(queue, p.message, Times(topic, p.jobId)), Relevant(log + [p], since, topic))
            <==> Times(topic, p.jobId) <= 1 || |queue| + 2 > CAPACITY
  {
    if Times(topic, p.jobId) <= 1 {
      SubsequenceOfItself(consumed + queue);
      DeliveryStep(consumed, queue, log, p, since, topic);
    } else if |queue| + 2 <= CAPACITY {
      HeardTwice(consumed, queue, log, p.message, since);
    } else {
      HeardOnce(consumed, queue, log, p.message, since);
    }
  }
}
