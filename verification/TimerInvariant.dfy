/**
  The timer queue as the source keeps it (TimerQueue.h, TimerQueue.cc): timers on a heap, two
  redundant indices over their addresses, a set of deferred cancellations and a one-shot alarm.
  This module holds the invariant that ties them to the address-free plan of module TimerPlan,
  stated on a snapshot of the fields.
 */
module TimerInvariant {
  import opened Common
  import opened Timers
  import opened OrderedIndex
  import opened TimerPlan

  datatype TimerId = TimerId(timer: Address, sequence: int)
  datatype ActiveTimer = ActiveTimer(timer: Address, sequence: int)
  datatype Functor = AddTimerInLoop(timer: Address) | CancelInLoop(id: TimerId)

  const NO_TIMER_ID := TimerId(NULLPTR, 0)

  function TaskOf(t: Timer): Task {
    Task(t.expiration, t.interval)
  }

  /** Memory never runs out: some cell is free, whatever is allocated. */
  lemma FreeCellExists(used: set<Address>) returns (n: nat)
    ensures 0 < n && forall m: nat :: n <= m ==> Cell(m) !in used
  {
    if used == {} {
      n := 1;
    } else {
      var a :| a in used;
      n := FreeCellExists(used - {a});
      if a.Cell? && n <= a.n {
        n := a.n + 1;
      }
      assert forall m: nat :: n <= m ==> Cell(m) !in used - {a} && Cell(m) != a;
    }
  }

  /** A snapshot of the queue's fields; `held` to `cancelled` are bookkeeping for the proof. */
  datatype Snapshot = Snapshot(
    heap: map<Address, Timer>, created: nat, timers: seq<Entry>, activeTimers: set<ActiveTimer>,
    callingExpiredTimers: bool, cancelingTimers: set<ActiveTimer>, armed: Option<int>,
    functors: seq<Functor>, ids: map<int, TimerId>,
    held: set<Address>, batchTime: int, batchCreated: nat, freed: set<int>, plan: Plan, cancelled: set<int>)
  {
    ghost predicate Scheduled(a: Address) {
      a in heap && Entry(heap[a].expiration, a) in timers
    }

    /** Sequence numbers identify timers for ever, even when an address is used again. */
    ghost predicate Identities() {
      && (forall k :: k in ids <==> 1 <= k <= created)
      && (forall k :: k in ids ==> ids[k].sequence == k)
      && (forall a :: a in heap ==> heap[a].sequence in ids && ids[heap[a].sequence].timer == a)
      && (forall a :: a in heap ==> a.Cell? && a != NULLPTR && heap[a].repeat == TaskOf(heap[a]).Repeats())
    }

    /** Both indices hold exactly the scheduled timers, the first one in order. */
    ghost predicate IndicesAgree() {
      && Sorted(timers)
      && (forall e :: e in timers ==> e.timer in heap && heap[e.timer].expiration == e.when)
      && (forall x :: x in activeTimers <==> Scheduled(x.timer) && heap[x.timer].sequence == x.sequence)
    }

    ghost predicate Waiting(a: Address) {
      AddTimerInLoop(a) in functors
    }

    /** Every allocated timer has exactly one owner: the indices, a queued functor, or the stack. */
    ghost predicate Ownership() {
      && (forall a :: a in heap <==> Scheduled(a) || a in held || Waiting(a))
      && (forall a :: a in held ==> !Scheduled(a) && !Waiting(a))
      && (forall a :: Waiting(a) ==> !Scheduled(a))
      && (forall i, j :: 0 <= i < j < |functors| && functors[i].AddTimerInLoop? ==> functors[i] != functors[j])
    }

    /** Timer `k` is still allocated. */
    ghost predicate Allocated(k: int) {
      k in ids && ids[k].timer in heap && heap[ids[k].timer].sequence == k
    }

    /** Every timer ever created is either allocated or was deleted, and not both. */
    ghost predicate Conserved() {
      forall k :: (k in freed <==> 1 <= k <= created && !Allocated(k))
    }

    ghost predicate Matches(f: Functor, m: Message) {
      match f
      case AddTimerInLoop(a) => a in heap && m == Arrive(heap[a].sequence, TaskOf(heap[a]))
      case CancelInLoop(id) => m.Revoke? && ((m.k == 0 && id == NO_TIMER_ID) || (m.k in ids && id == ids[m.k]))
    }

    /** The plan holds exactly the scheduled timers. */
    ghost predicate RefinesLive() {
      && plan.created == created
      && (forall a :: Scheduled(a) ==> heap[a].sequence in plan.live && plan.live[heap[a].sequence] == TaskOf(heap[a]))
      && (forall k :: k in plan.live ==> Allocated(k) && Scheduled(ids[k].timer))
    }

    ghost predicate RefinesQueue() {
      && |functors| == |plan.queue|
      && (forall i :: 0 <= i < |functors| ==> Matches(functors[i], plan.queue[i]))
    }

    /** Deferred cancellations, while callbacks run: what they say of the timers from before the batch. */
    ghost predicate RefinesCancelled() {
      callingExpiredTimers ==>
        && batchCreated <= created
        && (forall a :: a in held && a in heap && heap[a].sequence <= batchCreated ==>
              (ActiveTimer(a, heap[a].sequence) in cancelingTimers <==> heap[a].sequence in cancelled))
    }

    ghost predicate Core() {
      && Identities() && IndicesAgree() && Ownership() && Conserved()
      && RefinesLive() && RefinesQueue() && RefinesCancelled()
    }

    /**
      No lost wake-up: the alarm is set at or before the earliest expiration. While a batch runs this
      may fail only for expirations after the batch's own time, which `reset` will set.
     */
    ghost predicate WakesUp() {
      || timers == []
      || (callingExpiredTimers && batchTime < timers[0].when)
      || (armed.Some? && armed.value <= timers[0].when)
    }

    /** No needless wake-up either: the alarm is set for the earliest expiration itself. */
    ghost predicate AlarmExact() {
      timers != [] ==> armed == Some(timers[0].when)
    }

    ghost predicate Valid() {
      Core() && WakesUp() && (!callingExpiredTimers ==> held == {})
    }
  }

  /** The functors keep their meaning while the timers they carry stay as they are. */
  lemma QueueUntouched(q: Snapshot, r: Snapshot)
    requires q.RefinesQueue() && r.functors == q.functors && r.plan.queue == q.plan.queue
    requires forall k :: k in q.ids ==> k in r.ids && r.ids[k] == q.ids[k]
    requires forall a :: q.Waiting(a) && a in q.heap ==> a in r.heap && r.heap[a] == q.heap[a]
    ensures r.RefinesQueue()
  {}

  /** `new Timer(cb, when, interval)` at the free cell `a`, owned by the running function. */
  ghost function Created(q: Snapshot, a: Address, when: int, interval: real): Snapshot {
    q.(created := q.created + 1,
       heap := q.heap[a := NewTimer(when, interval, q.created + 1)],
       ids := q.ids[q.created + 1 := TimerId(a, q.created + 1)],
       held := q.held + {a},
       plan := q.plan.(created := q.created + 1))
  }

  lemma CreatedIndices(q: Snapshot, a: Address, when: int, interval: real)
    requires q.IndicesAgree() && a !in q.heap
    ensures Created(q, a, when, interval).IndicesAgree()
    ensures forall b :: Created(q, a, when, interval).Scheduled(b) <==> q.Scheduled(b)
  {}

  lemma CreatedOwnership(q: Snapshot, a: Address, when: int, interval: real)
    requires q.IndicesAgree() && q.Ownership() && a !in q.heap
    ensures Created(q, a, when, interval).Ownership()
  {}

  lemma CreatedCore(q: Snapshot, a: Address, when: int, interval: real)
    requires q.Core() && a.Cell? && a != NULLPTR && a !in q.heap
    ensures Created(q, a, when, interval).Core()
  {
    var r := Created(q, a, when, interval);
    CreatedIndices(q, a, when, interval);
    CreatedOwnership(q, a, when, interval);
    QueueUntouched(q, r);
    assert forall k :: k != r.created ==> (r.Allocated(k) <==> q.Allocated(k));
    assert r.Conserved();
    assert r.RefinesLive();
  }

  /** `delete` of a timer owned by the running function. */
  ghost function Deleted(q: Snapshot, a: Address): Snapshot
    requires a in q.heap
  {
    q.(freed := q.freed + {q.heap[a].sequence}, heap := q.heap - {a}, held := q.held - {a})
  }

  lemma DeletedIndices(q: Snapshot, a: Address)
    requires q.IndicesAgree() && q.Ownership() && a in q.held
    ensures a in q.heap && Deleted(q, a).IndicesAgree() && Deleted(q, a).Ownership()
    ensures forall b :: Deleted(q, a).Scheduled(b) <==> q.Scheduled(b)
  {}

  lemma DeletedCore(q: Snapshot, a: Address)
    requires q.Core() && a in q.held
    ensures Deleted(q, a).Core()
    ensures q.heap[a].sequence !in q.freed
  {
    var r := Deleted(q, a);
    DeletedIndices(q, a);
    assert r.Identities();
    assert forall k :: r.Allocated(k) <==> q.Allocated(k) && k != q.heap[a].sequence;
    QueueUntouched(q, r);
  }

  /** `insert`: the timer goes from the running function to both indices. */
  ghost function Inserted(q: Snapshot, a: Address): Snapshot
    requires a in q.heap
  {
    var t := q.heap[a];
    q.(timers := Insert(q.timers, Entry(t.expiration, a)),
       activeTimers := q.activeTimers + {ActiveTimer(a, t.sequence)},
       held := q.held - {a},
       plan := q.plan.(live := q.plan.live[t.sequence := TaskOf(t)]))
  }

  lemma InsertedIndices(q: Snapshot, a: Address)
    requires q.IndicesAgree() && a in q.heap && !q.Scheduled(a)
    ensures Inserted(q, a).IndicesAgree()
    ensures forall b :: Inserted(q, a).Scheduled(b) <==> q.Scheduled(b) || b == a
    ensures |Inserted(q, a).timers| == |q.timers| + 1 && |Inserted(q, a).activeTimers| == |q.activeTimers| + 1
    ensures Inserted(q, a).timers[0].when == if q.timers == [] || q.heap[a].expiration < q.timers[0].when
                                             then q.heap[a].expiration else q.timers[0].when
  {
    InsertAdds(q.timers, Entry(q.heap[a].expiration, a));
    var r := Inserted(q, a);
    assert forall b :: r.Scheduled(b) <==> q.Scheduled(b) || b == a;
  }

  lemma InsertedOwnership(q: Snapshot, a: Address)
    requires q.IndicesAgree() && q.Ownership() && a in q.held
    ensures a in q.heap && !q.Scheduled(a) && Inserted(q, a).Ownership()
  {
    hide Insert, Sorted;
    var r := Inserted(q, a);
    InsertedIndices(q, a);
    assert forall b :: r.Waiting(b) <==> q.Waiting(b);
  }

  lemma InsertedLive(q: Snapshot, a: Address)
    requires q.Identities() && q.IndicesAgree() && q.Ownership() && q.Conserved() && q.RefinesLive() && a in q.held
    ensures Inserted(q, a).Identities() && Inserted(q, a).Conserved() && Inserted(q, a).RefinesLive()
  {}

  lemma InsertedCore(q: Snapshot, a: Address)
    requires q.Core() && a in q.held
    ensures a in q.heap && Inserted(q, a).Core()
    ensures |Inserted(q, a).timers| == |q.timers| + 1 && |Inserted(q, a).activeTimers| == |q.activeTimers| + 1
    ensures Inserted(q, a).timers[0].when == if q.timers == [] || q.heap[a].expiration < q.timers[0].when
                                             then q.heap[a].expiration else q.timers[0].when
  {
    hide Snapshot.Identities, Snapshot.IndicesAgree, Snapshot.Ownership, Snapshot.Conserved, Snapshot.RefinesLive;
    InsertedOwnership(q, a);
    InsertedIndices(q, a);
    InsertedLive(q, a);
    QueueUntouched(q, Inserted(q, a));
  }

  /** `Timer::restart` on a timer of the expired batch. */
  ghost function Restarted(q: Snapshot, a: Address, now: int): Snapshot
    requires a in q.heap
  {
    q.(heap := q.heap[a := q.heap[a].Restart(now)])
  }

  lemma RestartedIndices(q: Snapshot, a: Address, now: int)
    requires q.IndicesAgree() && q.Ownership() && a in q.held
    ensures Restarted(q, a, now).IndicesAgree() && Restarted(q, a, now).Ownership()
    ensures forall b :: Restarted(q, a, now).Scheduled(b) <==> q.Scheduled(b)
  {}

  lemma RestartedCore(q: Snapshot, a: Address, now: int)
    requires q.Core() && a in q.held
    ensures Restarted(q, a, now).Core()
  {
    hide Sorted;
    var r := Restarted(q, a, now);
    RestartedIndices(q, a, now);
    QueueUntouched(q, r);
    assert forall k :: r.Allocated(k) <==> q.Allocated(k);
  }

  /** A cancellation that finds its timer: out of both indices, and deleted. */
  ghost function Removed(q: Snapshot, a: Address): Snapshot
    requires a in q.heap
  {
    var t := q.heap[a];
    q.(timers := Erase(q.timers, Entry(t.expiration, a)),
       activeTimers := q.activeTimers - {ActiveTimer(a, t.sequence)},
       heap := q.heap - {a},
       freed := q.freed + {t.sequence},
       plan := q.plan.(live := q.plan.live - {t.sequence}))
  }

  lemma RemovedIndices(q: Snapshot, a: Address)
    requires q.IndicesAgree() && q.Scheduled(a)
    ensures Removed(q, a).IndicesAgree()
    ensures forall b :: Removed(q, a).Scheduled(b) <==> q.Scheduled(b) && b != a
    ensures ActiveTimer(a, q.heap[a].sequence) in q.activeTimers
    ensures |Removed(q, a).timers| == |q.timers| - 1
  {
    EraseRemoves(q.timers, Entry(q.heap[a].expiration, a));
    var r := Removed(q, a);
    assert forall b :: r.Scheduled(b) <==> q.Scheduled(b) && b != a;
  }

  lemma RemovedLive(q: Snapshot, a: Address)
    requires q.Core() && q.Scheduled(a)
    ensures Removed(q, a).Identities() && Removed(q, a).Conserved() && Removed(q, a).RefinesLive()
    ensures q.heap[a].sequence !in q.freed
  {
    RemovedIndices(q, a);
    var r := Removed(q, a);
    assert r.Identities();
    assert forall k :: r.Allocated(k) <==> q.Allocated(k) && k != q.heap[a].sequence;
  }

  lemma RemovedOwnership(q: Snapshot, a: Address)
    requires q.IndicesAgree() && q.Ownership() && q.Scheduled(a)
    ensures Removed(q, a).Ownership() && a !in q.held && !q.Waiting(a)
  {
    RemovedIndices(q, a);
    var r := Removed(q, a);
    assert forall b :: r.Waiting(b) <==> q.Waiting(b);
  }

  lemma RemovedCore(q: Snapshot, a: Address)
    requires q.Core() && q.Scheduled(a)
    ensures Removed(q, a).Core() && q.heap[a].sequence !in q.freed && a !in q.held
    ensures |Removed(q, a).timers| == |q.timers| - 1
    ensures Removed(q, a).timers != [] ==> q.timers[0].when <= Removed(q, a).timers[0].when
  {
    EraseRemoves(q.timers, Entry(q.heap[a].expiration, a));
    RemovedIndices(q, a);
    RemovedLive(q, a);
    RemovedOwnership(q, a);
    hide Snapshot.Identities, Snapshot.IndicesAgree, Snapshot.Ownership, Snapshot.Conserved, Snapshot.RefinesLive;
    QueueUntouched(q, Removed(q, a));
  }

  /**
    A cancellation finds a timer exactly when the id is the one that was handed out for a timer that
    is still scheduled: an id whose timer is gone finds nothing, even if its address is in use again.
   */
  lemma CancelFinds(q: Snapshot, id: TimerId)
    requires q.Core()
    ensures ActiveTimer(id.timer, id.sequence) in q.activeTimers
            <==> id.sequence in q.ids && q.ids[id.sequence] == id && id.sequence in q.plan.live
    ensures ActiveTimer(id.timer, id.sequence) in q.activeTimers
            ==> q.Scheduled(id.timer) && q.heap[id.timer].sequence == id.sequence
  {}

  /** Callers only hold ids that were handed out, or the default one, which names no timer. */
  lemma KnownIds(q: Snapshot)
    requires q.Core()
    ensures q.plan.created == q.created
    ensures forall k :: k in q.ids <==> 1 <= k <= q.created
    ensures forall k :: k in q.ids ==> q.ids[k].sequence == k
    ensures forall k :: k in q.plan.live ==> k in q.ids
  {}

  lemma InIndexInHeap(q: Snapshot)
    requires q.IndicesAgree()
    ensures forall e :: e in q.timers ==> e.timer in q.heap
  {}

  /** The invariant of the indices does not depend on the alarm. */
  lemma AlarmIsFree(q: Snapshot, r: Snapshot)
    requires q.Core() && r == q.(armed := r.armed)
    ensures r.Core()
  {
    assert forall b :: r.Scheduled(b) <==> q.Scheduled(b);
    assert forall k :: r.Allocated(k) <==> q.Allocated(k);
    QueueUntouched(q, r);
  }

  lemma HeldAllocated(q: Snapshot, a: Address)
    requires q.Core() && a in q.held
    ensures a in q.heap && q.heap[a].repeat == TaskOf(q.heap[a]).Repeats()
  {}

  lemma HeldInHeap(q: Snapshot)
    requires q.Core()
    ensures forall a :: a in q.held ==> a in q.heap
  {}

  lemma FunctorsMatch(q: Snapshot)
    requires q.Core()
    ensures |q.functors| == |q.plan.queue|
    ensures q.functors != [] ==> q.Matches(q.functors[0], q.plan.queue[0])
  {}

  function AddressesOf(es: seq<Entry>): set<Address> {
    set e | e in es :: e.timer
  }

  lemma AddressesStep(es: seq<Entry>, i: nat)
    requires i < |es|
    ensures AddressesOf(es[..0]) == {} && AddressesOf(es[..i + 1]) == AddressesOf(es[..i]) + {es[i].timer}
    ensures (forall j :: 0 <= j < i ==> es[j].timer != es[i].timer) ==> es[i].timer !in AddressesOf(es[..i])
  {}

  /** Between two events, the allocated timers are those of the index and those still queued. */
  lemma ScheduledOrWaiting(q: Snapshot)
    requires q.Core() && q.held == {}
    ensures AddressesOf([]) == {}
    ensures forall i :: 0 <= i < |q.timers| ==> q.timers[i].timer in q.heap
    ensures forall i, j :: 0 <= i < j < |q.timers| ==> q.timers[i].timer != q.timers[j].timer
    ensures forall a :: a in q.heap && a !in AddressesOf(q.timers) <==> q.Waiting(a)
  {}

  lemma ScheduledAllocated(q: Snapshot, e: Entry)
    requires q.Core() && e in q.timers
    ensures q.Scheduled(e.timer) && q.heap[e.timer].expiration == e.when
  {}

  // ----- What the invariant promises -----

  /**
    Memory conservation: every timer ever created is in exactly one place. It was deleted, or it is
    scheduled, or its `addTimer` is still queued, or the running batch owns it.
   */
  lemma ExactlyOneOwner(q: Snapshot, k: int)
    requires q.Core() && 1 <= k <= q.created
    ensures Count(k in q.freed) + Count(k in q.plan.live) + Count(q.plan.Queued(k))
            + Count(q.Allocated(k) && q.ids[k].timer in q.held) == 1
  {}

  /**
    An id that is not the very id of an allocated timer is harmless, be it stale, with its address in
    use again, or made up: it finds nothing in the index, and as a deferred cancellation it changes for
    no timer whether it starts again.
   */
  lemma StaleIdIsHarmless(q: Snapshot, id: TimerId)
    requires q.Core() && (id.sequence in q.freed || id.sequence !in q.ids || q.ids[id.sequence] != id)
    ensures ActiveTimer(id.timer, id.sequence) !in q.activeTimers
    ensures forall a :: StartsAgain(Deferred(q, id), a) <==> StartsAgain(q, a)
  {}

  /** No lost wake-up: outside a batch the alarm is set, and not after any due time. */
  lemma WakesInTime(q: Snapshot, k: int)
    requires q.Valid() && !q.callingExpiredTimers && k in q.plan.live
    ensures q.armed.Some? && q.armed.value <= q.plan.live[k].due
  {}

  /** In terms of the plan, an exact alarm is set for the least due time. */
  lemma AlarmIsEarliest(q: Snapshot, k: int)
    requires q.Core() && q.AlarmExact() && k in q.plan.live
    ensures q.armed.Some? && q.armed.value <= q.plan.live[k].due
    ensures exists first :: first in q.plan.live && q.plan.live[first].due == q.armed.value
  {
    assert q.Scheduled(q.ids[k].timer);
    var e := q.timers[0];
    assert e in q.timers && q.Scheduled(e.timer);
    assert q.heap[e.timer].sequence in q.plan.live;
  }

  /** The tasks that `reset` puts back: of the batch, those with a positive interval that no callback cancelled. */
  lemma RenewedMeans(was: map<int, Task>, fired: seq<int>, cancelled: set<int>, now: int)
    ensures forall k :: k in Renewed(was, fired, cancelled, now)
                        <==> k in fired && k in was && was[k].interval > 0.0 && k !in cancelled
    ensures forall k :: k in Renewed(was, fired, cancelled, now) ==>
              Renewed(was, fired, cancelled, now)[k] == Task(now + Ticks(was[k].interval), was[k].interval)
  {}

  lemma PlanIsWellFormed(q: Snapshot)
    requires q.Core()
    ensures WellFormed(q.plan)
  {}

  /** A cancellation that finds no scheduled timer while callbacks run; a forged id means nothing. */
  ghost function Deferred(q: Snapshot, id: TimerId): Snapshot {
    q.(cancelingTimers := q.cancelingTimers + {ActiveTimer(id.timer, id.sequence)},
       cancelled := if id.sequence in q.ids && q.ids[id.sequence] != id then q.cancelled
                    else q.cancelled + {id.sequence})
  }

  lemma DeferredCore(q: Snapshot, id: TimerId)
    requires q.Core()
    ensures Deferred(q, id).Core()
  {
    var r := Deferred(q, id);
    QueueUntouched(q, r);
    assert forall b :: r.Scheduled(b) <==> q.Scheduled(b);
    assert r.RefinesCancelled();
  }

  /** Another thread's `addTimer` hands its timer to the loop; its `cancel` hands over the id. */
  ghost function Posted(q: Snapshot, a: Address): Snapshot
    requires a in q.heap
  {
    q.(functors := q.functors + [AddTimerInLoop(a)], held := q.held - {a},
       plan := q.plan.(queue := q.plan.queue + [Arrive(q.heap[a].sequence, TaskOf(q.heap[a]))]))
  }

  lemma PostedCore(q: Snapshot, a: Address)
    requires q.Core() && a in q.held
    ensures Posted(q, a).Core()
  {
    hide Sorted;
    var r := Posted(q, a);
    assert forall b :: r.Waiting(b) <==> q.Waiting(b) || b == a;
    assert r.Ownership();
    assert forall b :: r.Scheduled(b) <==> q.Scheduled(b);
    assert r.RefinesQueue();
  }

  ghost function PostedCancel(q: Snapshot, id: TimerId): Snapshot {
    q.(functors := q.functors + [CancelInLoop(id)],
       plan := q.plan.(queue := q.plan.queue + [Revoke(id.sequence)]))
  }

  lemma PostedCancelCore(q: Snapshot, id: TimerId)
    requires q.Core() && (id == NO_TIMER_ID || (id.sequence in q.ids && q.ids[id.sequence] == id))
    ensures PostedCancel(q, id).Core()
  {
    var r := PostedCancel(q, id);
    assert forall b :: r.Waiting(b) <==> q.Waiting(b);
    assert r.Ownership();
    assert forall b :: r.Scheduled(b) <==> q.Scheduled(b);
    assert r.RefinesQueue();
  }

  /** The loop takes its oldest functor out of the queue; a timer it carries is now its own. */
  ghost function Popped(q: Snapshot): Snapshot
    requires q.functors != [] && q.plan.queue != []
  {
    q.(functors := q.functors[1..],
       held := q.held + (if q.functors[0].AddTimerInLoop? then {q.functors[0].timer} else {}),
       plan := q.plan.(queue := q.plan.queue[1..]))
  }

  lemma PoppedOwnership(q: Snapshot)
    requires q.Ownership() && q.functors != [] && q.plan.queue != []
    ensures Popped(q).Ownership()
  {}

  lemma PoppedCore(q: Snapshot)
    requires q.Core() && q.functors != [] && !q.callingExpiredTimers
    ensures q.plan.queue != [] && Popped(q).Core()
  {
    var r := Popped(q);
    PoppedOwnership(q);
    assert forall b :: r.Scheduled(b) <==> q.Scheduled(b);
    assert forall i :: 0 <= i < |r.functors| ==> r.functors[i] == q.functors[i + 1] && r.plan.queue[i] == q.plan.queue[i + 1];
    assert r.RefinesQueue();
  }

  function KeysOf(heap: map<Address, Timer>, es: seq<Entry>): set<ActiveTimer> {
    set e | e in es && e.timer in heap :: ActiveTimer(e.timer, heap[e.timer].sequence)
  }

  lemma KeysOfNone(heap: map<Address, Timer>)
    ensures KeysOf(heap, []) == {}
  {}

  lemma KeysStep(heap: map<Address, Timer>, es: seq<Entry>, i: nat)
    requires i < |es| && es[i].timer in heap
    ensures KeysOf(heap, es[..i + 1]) == KeysOf(heap, es[..i]) + {ActiveTimer(es[i].timer, heap[es[i].timer].sequence)}
  {}

  function SequencesOf(heap: map<Address, Timer>, es: seq<Entry>): (ks: seq<int>)
    requires forall e :: e in es ==> e.timer in heap
    ensures |ks| == |es|
    ensures forall i :: 0 <= i < |es| ==> ks[i] == heap[es[i].timer].sequence
  {
    seq(|es|, i requires 0 <= i < |es| => assert es[i] in es; heap[es[i].timer].sequence)
  }

  /** `getExpired`: the due entries leave both indices and become the batch. */
  ghost function Taken(q: Snapshot, now: int): Snapshot
    requires q.IndicesAgree()
  {
    var expired := q.timers[..ExpiredEnd(q.timers, now)];
    q.(timers := q.timers[ExpiredEnd(q.timers, now)..],
       activeTimers := q.activeTimers - KeysOf(q.heap, expired),
       held := q.held + (set e | e in expired :: e.timer),
       plan := Start(q.plan, SequencesOf(q.heap, expired)).plan)
  }

  /** The split is exact: no timer lives at UINTPTR_MAX. */
  lemma TakenExactly(q: Snapshot, now: int)
    requires q.Identities() && q.IndicesAgree()
    ensures var end := ExpiredEnd(q.timers, now);
            && (forall e :: e in q.timers[..end] <==> e in q.timers && e.when <= now)
            && (forall e :: e in q.timers[end..] <==> e in q.timers && now < e.when)
  {}

  lemma TakenIndices(q: Snapshot, now: int)
    requires q.Identities() && q.IndicesAgree()
    ensures Taken(q, now).IndicesAgree()
    ensures forall b :: Taken(q, now).Scheduled(b) <==> q.Scheduled(b) && now < q.heap[b].expiration
    ensures forall b :: b in Taken(q, now).held <==> b in q.held || (q.Scheduled(b) && q.heap[b].expiration <= now)
  {
    TakenExactly(q, now);
    SplitKeepsOrder(q.timers, ExpiredEnd(q.timers, now));
    var r := Taken(q, now);
    assert forall b :: r.Scheduled(b) <==> q.Scheduled(b) && now < q.heap[b].expiration;
    assert forall b :: q.Scheduled(b) && q.heap[b].expiration <= now
                       ==> Entry(q.heap[b].expiration, b) in q.timers[..ExpiredEnd(q.timers, now)];
  }

  lemma TakenFires(q: Snapshot, now: int)
    requires q.Identities() && q.IndicesAgree() && q.RefinesLive()
    ensures var expired := q.timers[..ExpiredEnd(q.timers, now)];
            var fired := SequencesOf(q.heap, expired);
            && (forall i :: 0 <= i < |expired| ==>
                  && q.Scheduled(expired[i].timer) && fired[i] in q.plan.live
                  && q.ids[fired[i]].timer == expired[i].timer && q.plan.live[fired[i]].due == expired[i].when)
            && (forall k :: k in q.plan.live && q.plan.live[k].due <= now ==> k in fired)
  {
    TakenExactly(q, now);
    var expired := q.timers[..ExpiredEnd(q.timers, now)];
    var fired := SequencesOf(q.heap, expired);
    forall i | 0 <= i < |expired| ensures expired[i] in q.timers {
      assert expired[i] in expired;
    }
    forall k | k in q.plan.live && q.plan.live[k].due <= now ensures k in fired {
      var e := Entry(q.plan.live[k].due, q.ids[k].timer);
      assert e in expired;
      var i :| 0 <= i < |expired| && expired[i] == e;
      assert fired[i] == k;
    }
  }

  /** What `getExpired` returns is the batch that the plan calls for. */
  lemma TakenIsBatch(q: Snapshot, now: int)
    requires q.Identities() && q.IndicesAgree() && q.RefinesLive()
    ensures IsBatch(q.plan, now, SequencesOf(q.heap, q.timers[..ExpiredEnd(q.timers, now)]))
  {
    TakenExactly(q, now);
    TakenFires(q, now);
    var expired := q.timers[..ExpiredEnd(q.timers, now)];
    forall i, j | 0 <= i < j < |expired| ensures expired[i].Below(expired[j]) {
      assert q.timers[i].Below(q.timers[j]);
    }
  }

  lemma TakenLive(q: Snapshot, now: int)
    requires q.Identities() && q.IndicesAgree() && q.Conserved() && q.RefinesLive()
    ensures Taken(q, now).Conserved() && Taken(q, now).RefinesLive()
  {
    TakenIndices(q, now);
    TakenIsBatch(q, now);
    var r := Taken(q, now);
    assert forall k :: r.Allocated(k) <==> q.Allocated(k);
  }

  lemma TakenOwnership(q: Snapshot, now: int)
    requires q.Identities() && q.IndicesAgree() && q.Ownership()
    ensures Taken(q, now).Identities() && Taken(q, now).IndicesAgree() && Taken(q, now).Ownership()
  {
    TakenIndices(q, now);
    var r := Taken(q, now);
    assert forall b :: r.Waiting(b) <==> q.Waiting(b);
  }

  lemma TakenCore(q: Snapshot, now: int)
    requires q.Core() && !q.callingExpiredTimers
    ensures q.IndicesAgree() && Taken(q, now).Core()
  {
    TakenOwnership(q, now);
    TakenLive(q, now);
    hide Snapshot.Identities, Snapshot.IndicesAgree, Snapshot.Ownership, Snapshot.Conserved, Snapshot.RefinesLive;
    QueueUntouched(q, Taken(q, now));
  }

  /** The running function owns exactly the batch `es`, with the tasks that fired. */
  ghost predicate Holds(q: Snapshot, es: seq<Entry>, was: map<int, Task>, fired: seq<int>) {
    && |fired| == |es|
    && q.held == (set e | e in es :: e.timer)
    && (forall i :: 0 <= i < |es| ==>
          && es[i].timer in q.heap && q.heap[es[i].timer].sequence == fired[i]
          && fired[i] in was && was[fired[i]] == TaskOf(q.heap[es[i].timer]))
    && (forall i, j :: 0 <= i < j < |es| ==> es[i].timer != es[j].timer)
  }

  ghost predicate DeferralsAgree(q: Snapshot) {
    forall a :: a in q.held && a in q.heap ==>
      (ActiveTimer(a, q.heap[a].sequence) in q.cancelingTimers <==> q.heap[a].sequence in q.cancelled)
  }

  /** The alarm may only be late for expirations from `now` on. */
  ghost predicate OnTime(q: Snapshot, now: int) {
    q.timers == [] || now <= q.timers[0].when || (q.armed.Some? && q.armed.value <= q.timers[0].when)
  }

  lemma BatchHead(q: Snapshot, es: seq<Entry>, was: map<int, Task>, fired: seq<int>, i: nat)
    requires q.Core() && i < |es| == |fired| && Holds(q, es[i..], was, fired[i..]) && DeferralsAgree(q)
    ensures es[i].timer in q.held && es[i].timer in q.heap
    ensures q.heap[es[i].timer].sequence == fired[i] && fired[i] in was && was[fired[i]] == TaskOf(q.heap[es[i].timer])
    ensures q.heap[es[i].timer].repeat <==> was[fired[i]].Repeats()
    ensures ActiveTimer(es[i].timer, fired[i]) in q.cancelingTimers <==> fired[i] in q.cancelled
  {}

  lemma BatchTail(q: Snapshot, r: Snapshot, es: seq<Entry>, was: map<int, Task>, fired: seq<int>, i: nat)
    requires i < |es| == |fired| && Holds(q, es[i..], was, fired[i..]) && DeferralsAgree(q)
    requires r.held == q.held - {es[i].timer} && r.cancelled == q.cancelled && r.cancelingTimers == q.cancelingTimers
    requires forall a :: a in q.heap && a != es[i].timer ==> a in r.heap && r.heap[a] == q.heap[a]
    ensures Holds(r, es[i + 1..], was, fired[i + 1..]) && DeferralsAgree(r)
  {}

  /** `getExpired` hands `handleRead` the batch that the plan calls for; nothing later is missed. */
  lemma TakenHolds(q: Snapshot, now: int)
    requires q.Core() && q.held == {}
    ensures q.IndicesAgree()
    ensures var expired := q.timers[..ExpiredEnd(q.timers, now)];
            && (forall e :: e in expired ==> e.timer in q.heap)
            && IsBatch(q.plan, now, SequencesOf(q.heap, expired))
            && Holds(Taken(q, now), expired, q.plan.live, SequencesOf(q.heap, expired))
            && (Taken(q, now).timers != [] ==> now < Taken(q, now).timers[0].when)
            && Taken(q, now) == q.(timers := Taken(q, now).timers, activeTimers := Taken(q, now).activeTimers,
                                   held := Taken(q, now).held, plan := Start(q.plan, SequencesOf(q.heap, expired)).plan)
            && (expired == [] ==> Taken(q, now).timers == q.timers && Taken(q, now).activeTimers == q.activeTimers)
  {
    TakenExactly(q, now);
    TakenIsBatch(q, now);
    var end := ExpiredEnd(q.timers, now);
    var expired := q.timers[..end];
    assert q.timers[end..] != [] ==> q.timers[end..][0] in q.timers[end..];
    forall i | 0 <= i < |expired| ensures q.Scheduled(expired[i].timer) && q.heap[expired[i].timer].expiration == expired[i].when {
      assert expired[i] in expired;
    }
    forall i, j | 0 <= i < j < |expired| ensures expired[i].timer != expired[j].timer {
      assert q.timers[i].Below(q.timers[j]);
    }
  }

  lemma StartFrame(p: Plan, fired: seq<int>)
    ensures Start(p, fired) == Frame(Start(p, fired).plan, {})
  {}

  lemma BatchBegins(q: Snapshot, r: Snapshot, now: int, es: seq<Entry>, was: map<int, Task>, fired: seq<int>)
    requires q.Core() && Holds(q, es, was, fired) && (q.timers != [] ==> now < q.timers[0].when)
    requires r == q.(callingExpiredTimers := true, cancelingTimers := {}, batchTime := now, batchCreated := q.created,
                     cancelled := {})
    ensures r.Core() && r.WakesUp()
    ensures Holds(r, es, was, fired)
  {
    assert forall b :: r.Scheduled(b) <==> q.Scheduled(b);
    assert forall k :: r.Allocated(k) <==> q.Allocated(k);
    QueueUntouched(q, r);
  }

  lemma BatchEnds(q: Snapshot, r: Snapshot, now: int, es: seq<Entry>, was: map<int, Task>, fired: seq<int>)
    requires q.Core() && Holds(q, es, was, fired) && q.WakesUp() && q.callingExpiredTimers && q.batchTime == now
    requires forall k :: k in was ==> k <= q.batchCreated
    requires r == q.(callingExpiredTimers := false)
    ensures r.Core() && DeferralsAgree(r) && OnTime(r, now)
    ensures Holds(r, es, was, fired)
  {
    assert forall b :: r.Scheduled(b) <==> q.Scheduled(b);
    assert forall k :: r.Allocated(k) <==> q.Allocated(k);
    QueueUntouched(q, r);
  }

  lemma BatchMember(q: Snapshot, es: seq<Entry>, was: map<int, Task>, fired: seq<int>, i: nat)
    requires i < |es| == |fired| && Holds(q, es, was, fired)
    ensures es[i].timer in q.heap && q.heap[es[i].timer].sequence == fired[i]
  {}

  lemma HoldsKept(q: Snapshot, r: Snapshot, es: seq<Entry>, was: map<int, Task>, fired: seq<int>)
    requires Holds(q, es, was, fired) && r.held == q.held
    requires forall a :: a in r.held ==> a in q.heap && a in r.heap && r.heap[a] == q.heap[a]
    ensures Holds(r, es, was, fired)
  {}

  lemma IssuedStep(f: Frame, fired: seq<int>, script: Script, i: nat)
    requires i < |fired|
    ensures ExecAll(f, Issued(fired[..i + 1], script)) == ExecAll(ExecAll(f, Issued(fired[..i], script)), Actions(script, fired[i]))
  {
    assert fired[..i + 1][..i] == fired[..i];
    ExecAllConcat(f, Issued(fired[..i], script), Actions(script, fired[i]));
  }

  ghost predicate StartsAgain(q: Snapshot, a: Address) {
    a in q.heap && q.heap[a].repeat && ActiveTimer(a, q.heap[a].sequence) !in q.cancelingTimers
  }

  /** One turn of the loop in `reset`: the rest of the batch is still owned, and no alarm is late. */
  lemma BatchFinished(q: Snapshot, es: seq<Entry>, was: map<int, Task>, fired: seq<int>, i: nat, now: int)
    requires q.Core() && i < |es| == |fired| && Holds(q, es[i..], was, fired[i..]) && DeferralsAgree(q)
    requires es[i].timer in q.heap && OnTime(q, now)
    ensures var a := es[i].timer;
            var r := if StartsAgain(q, a) then Inserted(Restarted(q, a, now), a) else Deleted(q, a);
            && Holds(r, es[i + 1..], was, fired[i + 1..]) && DeferralsAgree(r) && OnTime(r, now)
            && r.functors == q.functors && r.cancelled == q.cancelled && r.callingExpiredTimers == q.callingExpiredTimers
            && fired[i] in was
            && r.plan == if was[fired[i]].Repeats() && fired[i] !in q.cancelled
                         then q.plan.(live := q.plan.live[fired[i] := Task(AddTime(now, was[fired[i]].interval), was[fired[i]].interval)])
                         else q.plan
  {
    hide Snapshot.Core, Holds, DeferralsAgree;
    var a := es[i].timer;
    BatchHead(q, es, was, fired, i);
    RestartedCore(q, a, now);
    InsertedCore(Restarted(q, a, now), a);
    BatchTail(q, Inserted(Restarted(q, a, now), a), es, was, fired, i);
    BatchTail(q, Deleted(q, a), es, was, fired, i);
  }

  lemma BatchOver(q: Snapshot, was: map<int, Task>)
    ensures Holds(q, [], was, []) ==> q.held == {}
  {}

  lemma RenewedNone(was: map<int, Task>, cancelled: set<int>, now: int)
    ensures Renewed(was, [], cancelled, now) == map[]
  {}

  lemma RenewedStep(was: map<int, Task>, fired: seq<int>, cancelled: set<int>, now: int, i: nat)
    requires i < |fired| && fired[i] in was
    ensures Renewed(was, fired[..i + 1], cancelled, now) ==
            if was[fired[i]].Repeats() && fired[i] !in cancelled
            then Renewed(was, fired[..i], cancelled, now)[fired[i] := Task(AddTime(now, was[fired[i]].interval), was[fired[i]].interval)]
            else Renewed(was, fired[..i], cancelled, now)
  {}

  /** Setting the alarm for a valid earliest time leaves no wake-up lost. */
  lemma OnTimeWakesUp(q: Snapshot, r: Snapshot, now: int)
    requires OnTime(q, now) && 0 < now
    requires r == q.(armed := if q.timers != [] && INVALID_TIME < q.timers[0].when then Some(q.timers[0].when) else q.armed)
    ensures r.WakesUp()
  {}

  lemma {:induction false} DistinctKeysCount(heap: map<Address, Timer>, es: seq<Entry>)
    requires forall e :: e in es ==> e.timer in heap
    requires forall i, j :: 0 <= i < j < |es| ==> es[i].timer != es[j].timer
    ensures |KeysOf(heap, es)| == |es|
  {
    if es != [] {
      var n := |es| - 1;
      var key := ActiveTimer(es[n].timer, heap[es[n].timer].sequence);
      DistinctKeysCount(heap, es[..n]);
      assert es == es[..n] + [es[n]];
      assert KeysOf(heap, es) == KeysOf(heap, es[..n]) + {key};
    }
  }

  /** The two indices always have the same number of elements. */
  lemma SameSize(q: Snapshot)
    requires q.IndicesAgree()
    ensures |q.timers| == |q.activeTimers|
  {
    forall i, j | 0 <= i < j < |q.timers| ensures q.timers[i].timer != q.timers[j].timer {
      assert q.timers[i] in q.timers && q.timers[j] in q.timers;
      assert q.timers[i].Below(q.timers[j]);
    }
    assert forall x :: x in q.activeTimers ==> Entry(q.heap[x.timer].expiration, x.timer) in q.timers;
    assert q.activeTimers == KeysOf(q.heap, q.timers);
    DistinctKeysCount(q.heap, q.timers);
  }
}
