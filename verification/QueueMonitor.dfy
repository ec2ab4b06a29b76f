/**
 Local execution slots: a counter and a semaphore that must agree.
 */
module QueueMonitors {

  /** `permits` is the semaphore's value. */
  datatype Queue = Queue(capacity: nat, active: nat, permits: nat)

  function Idle(capacity: nat): Queue {
    Queue(capacity, 0, capacity)
  }

  predicate AtCapacity(q: Queue) {
    q.active >= q.capacity
  }

  /** The semaphore would block the task that holds the queue lock. */
  predicate Blocks(q: Queue) {
    !AtCapacity(q) && q.permits == 0
  }

  function AcquireSlot(q: Queue): (Queue, bool) {
    if AtCapacity(q) then (q, false)
    else (q.(active := q.active + 1, permits := if q.permits > 0 then q.permits - 1 else 0), true)
  }

  function ReleaseSlot(q: Queue): Queue {
    if q.active > 0 then q.(active := q.active - 1, permits := q.permits + 1) else q
  }

  predicate Agree(q: Queue) {
    q.active + q.permits == q.capacity
  }

  datatype Call = AcquireCall | ReleaseCall

  function Run(q: Queue, calls: seq<Call>): Queue
    decreases |calls|
  {
    if calls == [] then q
    else Run(if calls[0] == AcquireCall then AcquireSlot(q).0 else ReleaseSlot(q), calls[1..])
  }

  /**
   In any order of acquires and releases, released slots never held included, the counter and
   the semaphore agree, and an acquire that passes the capacity test never waits on the semaphore.
   */
  lemma {:induction false} SlotsAgree(q: Queue, calls: seq<Call>)
    requires Agree(q)
    ensures var q' := Run(q, calls);
            Agree(q') && q'.capacity == q.capacity && !Blocks(q') && (AcquireSlot(q').1 <==> q'.permits > 0)
    decreases |calls|
  {
    if calls != [] {
      SlotsAgree(if calls[0] == AcquireCall then AcquireSlot(q).0 else ReleaseSlot(q), calls[1..]);
    }
  }

  /** Slots handed out and not returned, by what the calls answered. */
  function Outstanding(q: Queue, calls: seq<Call>, held: nat): nat
    decreases |calls|
  {
    if calls == [] then held
    else match calls[0]
      case AcquireCall =>
        var (q', acquired) := AcquireSlot(q);
        Outstanding(q', calls[1..], if acquired then held + 1 else held)
      case ReleaseCall => Outstanding(ReleaseSlot(q), calls[1..], if held > 0 then held - 1 else 0)
  }

  /** The counter counts: it is the number of slots handed out and not returned, and never above the capacity. */
  lemma {:induction false} SlotsCounted(q: Queue, calls: seq<Call>)
    requires q.active <= q.capacity
    ensures Run(q, calls).active == Outstanding(q, calls, q.active) <= q.capacity
    decreases |calls|
  {
    if calls != [] {
      SlotsCounted(if calls[0] == AcquireCall then AcquireSlot(q).0 else ReleaseSlot(q), calls[1..]);
    }
  }

  class QueueMonitor {
    const maxConcurrency: nat
    var semaphore: nat
    var activeCount: nat

    ghost predicate Valid()
      reads this
    {
      activeCount + semaphore == maxConcurrency
    }

    ghost function Model(): Queue
      reads this
    {
      Queue(maxConcurrency, activeCount, semaphore)
    }

    constructor (maxConcurrency: nat)
      requires maxConcurrency > 0
      ensures Valid() && Model() == Idle(maxConcurrency)
    {
      this.maxConcurrency := maxConcurrency;
      semaphore := maxConcurrency;
      activeCount := 0;
    }

    /** The constructor's ValueError, as a null result. */
    static method Create(maxConcurrency: int) returns (monitor: QueueMonitor?)
      ensures monitor == null <==> maxConcurrency <= 0
      ensures monitor != null ==> fresh(monitor) && monitor.Valid() && monitor.Model() == Idle(maxConcurrency)
    {
      if maxConcurrency <= 0 {
        return null;
      }
      monitor := new QueueMonitor(maxConcurrency);
    }

    method IsAtCapacity() returns (full: bool)
      requires Valid()
      ensures full <==> AtCapacity(Model())
      ensures full <==> semaphore == 0
    {
      full := activeCount >= maxConcurrency;
    }

    /** Taking the semaphore under the lock is proved not to wait: its value is positive there. */
    method Acquire() returns (acquired: bool)
      requires Valid()
      modifies this
      ensures Valid()
      ensures (Model(), acquired) == AcquireSlot(old(Model()))
      ensures acquired <==> old(semaphore) > 0
    {
      if activeCount >= maxConcurrency {
        return false;
      }
      assert semaphore > 0;
      semaphore := semaphore - 1;
      activeCount := activeCount + 1;
      return true;
    }

    method Release()
      requires Valid()
      modifies this
      ensures Valid()
      ensures Model() == ReleaseSlot(old(Model()))
    {
      if activeCount > 0 {
        activeCount := activeCount - 1;
        semaphore := semaphore + 1;
      }
    }
  }
}
