/**
 The event bus: one bounded queue per connected client, oldest event dropped when full.
 */
module EventBuses {
  import opened Options

  /** Events a client's queue holds before the oldest is dropped. */
  const MAX_QUEUE_SIZE: nat := 64

  /**
   One subscription.  `queue` is what the program keeps; the rest is history: what was published
   since it was made, and which of those events the client took, by position.
   */
  datatype Client<E> = Client(queue: seq<E>, published: seq<E>, taken: seq<nat>) {

    /** The position, among the published events, of the front of the queue. */
    function Front(): int {
      |published| - |queue|
    }
  }

  function Connected<E>(): Client<E> {
    Client([], [], [])
  }

  function Enqueue<E>(queue: seq<E>, e: E): seq<E> {
    (if |queue| >= MAX_QUEUE_SIZE then queue[1..] else queue) + [e]
  }

  function Deliver<E>(c: Client<E>, e: E): Client<E> {
    c.(queue := Enqueue(c.queue, e), published := c.published + [e])
  }

  function Take<E>(c: Client<E>): (Client<E>, Option<E>) {
    if c.queue == [] then (c, None)
    else (c.(queue := c.queue[1..], taken := c.taken + [if c.Front() >= 0 then c.Front() else 0]), Some(c.queue[0]))
  }

  datatype Act<E> = Publishing(e: E) | Taking

  function Perform<E>(c: Client<E>, a: Act<E>): Client<E> {
    match a
    case Publishing(e) => Deliver(c, e)
    case Taking => Take(c).0
  }

  function Run<E>(c: Client<E>, acts: seq<Act<E>>): Client<E>
    decreases |acts|
  {
    if acts == [] then c else Run(Perform(c, acts[0]), acts[1..])
  }

  /** The queue is a suffix of what was published, and the client has moved strictly forward. */
  ghost predicate Faithful<E>(c: Client<E>) {
    && |c.queue| <= MAX_QUEUE_SIZE
    && |c.queue| <= |c.published|
    && c.queue == c.published[c.Front()..]
    && (forall k :: 0 <= k < |c.taken| ==> c.taken[k] < c.Front())
    && (forall j, k :: 0 <= j < k < |c.taken| ==> c.taken[j] < c.taken[k])
  }

  predicate WasTaken<E>(c: Client<E>, i: nat) {
    exists k :: 0 <= k < |c.taken| && c.taken[k] == i
  }

  /** Gone from the queue without having been taken. */
  predicate Lost<E>(c: Client<E>, i: nat) {
    i < c.Front() && !WasTaken(c, i)
  }

  ghost predicate LossesExplained<E>(c: Client<E>) {
    forall i: nat {:trigger Lost(c, i)} :: Lost(c, i) ==> i + MAX_QUEUE_SIZE < |c.published|
  }

  lemma DeliverFaithful<E>(c: Client<E>, e: E)
    requires Faithful(c) && LossesExplained(c)
    ensures Faithful(Deliver(c, e)) && LossesExplained(Deliver(c, e))
  {
    var c' := Deliver(c, e);
    assert c'.queue == c'.published[c'.Front()..];
    forall i: nat | Lost(c', i) ensures i + MAX_QUEUE_SIZE < |c'.published| {
      if i < c.Front() { assert Lost(c, i); }
    }
  }

  lemma TakeFaithful<E>(c: Client<E>)
    requires Faithful(c) && LossesExplained(c)
    ensures Faithful(Take(c).0) && LossesExplained(Take(c).0)
    ensures Take(c).1 == if c.queue == [] then None else Some(c.published[c.Front()])
  {
    var c' := Take(c).0;
    if c.queue != [] {
      assert c'.queue == c'.published[c'.Front()..];
      assert c'.taken[|c.taken|] == c.Front();
      forall i: nat | Lost(c', i) ensures i + MAX_QUEUE_SIZE < |c'.published| {
        assert i < c.Front();
        assert forall k :: 0 <= k < |c.taken| ==> c'.taken[k] == c.taken[k];
        assert Lost(c, i);
      }
    }
  }

  lemma {:induction false} RunFaithful<E>(c: Client<E>, acts: seq<Act<E>>)
    requires Faithful(c) && LossesExplained(c)
    ensures Faithful(Run(c, acts)) && LossesExplained(Run(c, acts))
    decreases |acts|
  {
    if acts != [] {
      match acts[0]
      case Publishing(e) => DeliverFaithful(c, e); RunFaithful(Deliver(c, e), acts[1..]);
      case Taking => TakeFaithful(c); RunFaithful(Take(c).0, acts[1..]);
    }
  }

  /**
   Drop-oldest fidelity, for every subscription and any pace of its client.  The queue is the
   last part, at most 64 long, of what was published since; the client takes events in publish
   order, each at most once; and an event is lost exactly when it was not taken before 64 more
   were published.
   */
  lemma DropOldestFidelity<E>(acts: seq<Act<E>>, i: nat)
    requires i < |Run(Connected<E>(), acts).published|
    ensures var c := Run(Connected<E>(), acts);
            && |c.queue| <= 64
            && 0 <= c.Front() && c.queue == c.published[c.Front()..]
            && (forall j, k :: 0 <= j < k < |c.taken| ==> c.taken[j] < c.taken[k])
            && (Lost(c, i) <==> !WasTaken(c, i) && i + 64 < |c.published|)
            && (WasTaken(c, i) ==> i < c.Front())
  {
    RunFaithful(Connected<E>(), acts);
  }

  // ---------- the bus as the program keeps it ----------

  /** A bounded queue object. */
  class ClientQueue<E> {
    var items: seq<E>
    ghost var published: seq<E>
    ghost var taken: seq<nat>

    ghost function Model(): Client<E>
      reads this
    {
      Client(items, published, taken)
    }

    predicate Valid()
      reads this
    {
      |items| <= MAX_QUEUE_SIZE
    }

    constructor ()
      ensures Valid() && Model() == Connected()
    {
      items, published, taken := [], [], [];
    }

    method Full() returns (full: bool)
      ensures full <==> |items| >= MAX_QUEUE_SIZE
    {
      full := |items| >= MAX_QUEUE_SIZE;
    }

    /** `None` stands for the QueueEmpty exception. */
    method GetNowait() returns (e: Option<E>)
      requires Valid()
      modifies this
      ensures Valid() && (Model(), e) == Take(old(Model()))
    {
      if items == [] {
        return None;
      }
      e := Some(items[0]);
      taken := taken + [if Model().Front() >= 0 then Model().Front() else 0];
      items := items[1..];
    }

    /** `false` stands for the QueueFull exception. */
    method PutNowait(e: E) returns (accepted: bool)
      requires Valid()
      modifies this
      ensures Valid() && accepted == (|old(items)| < MAX_QUEUE_SIZE)
      ensures items == old(items) + (if accepted then [e] else [])
      ensures published == old(published) && taken == old(taken)
    {
      accepted := |items| < MAX_QUEUE_SIZE;
      if accepted {
        items := items + [e];
      }
    }

    /** The body of the publishing loop; the put that follows the drop is proved to be accepted. */
    method Offer(e: E)
      requires Valid()
      modifies this
      ensures Valid() && Model() == Deliver(old(Model()), e)
    {
      var full := Full();
      if full {
        items := items[1..];
      }
      var accepted := PutNowait(e);
      assert accepted;
      published := published + [e];
    }
  }

  class EventBus<E> {
    var subscribers: seq<ClientQueue<E>>

    ghost predicate Valid()
      reads this, subscribers
    {
      && (forall i, j :: 0 <= i < j < |subscribers| ==> subscribers[i] != subscribers[j])
      && (forall q :: q in subscribers ==> q.Valid())
    }

    constructor ()
      ensures Valid() && subscribers == []
    {
      subscribers := [];
    }

    method Subscribe() returns (q: ClientQueue<E>)
      requires Valid()
      modifies this
      ensures Valid() && fresh(q) && q.Model() == Connected<E>()
      ensures subscribers == old(subscribers) + [q]
    {
      q := new ClientQueue();
      subscribers := subscribers + [q];
    }

    /** Safe to call for a queue that is not, or no longer, subscribed. */
    method Unsubscribe(q: ClientQueue<E>)
      requires Valid()
      modifies this
      ensures Valid() && q !in subscribers
      ensures q !in old(subscribers) ==> subscribers == old(subscribers)
      ensures forall i :: 0 <= i < |old(subscribers)| && old(subscribers)[i] == q ==>
                subscribers == old(subscribers)[..i] + old(subscribers)[i + 1..]
    {
      var i := 0;
      while i < |subscribers| && subscribers[i] != q
        invariant 0 <= i <= |subscribers|
        invariant q !in subscribers[..i]
      {
        i := i + 1;
      }
      if i < |subscribers| {
        subscribers := subscribers[..i] + subscribers[i + 1..];
      }
    }

    /** Every subscriber gets the event; nothing else changes. */
    method Publish(e: E)
      requires Valid()
      modifies subscribers
      ensures Valid() && subscribers == old(subscribers)
      ensures forall q :: q in subscribers ==> q.Model() == Deliver(old(q.Model()), e)
    {
      for i := 0 to |subscribers|
        invariant Valid() && subscribers == old(subscribers)
        invariant forall k :: 0 <= k < i ==> subscribers[k].Model() == Deliver(old(subscribers[k].Model()), e)
        invariant forall k :: i <= k < |subscribers| ==> subscribers[k].Model() == old(subscribers[k].Model())
      {
        subscribers[i].Offer(e);
      }
    }
  }
}
