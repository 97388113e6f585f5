/**
  The timer queue as an object (TimerQueue.h, TimerQueue.cc). Every method follows the source step by
  step and is proved against the plan: what it does to the map from sequence numbers to tasks.
 */
module TimerQueueModel {
  import opened Common
  import opened Timers
  import opened OrderedIndex
  import opened TimerPlan
  import opened TimerInvariant

  class TimerQueue {
    /** The allocated timers; looking up an address that is not here is a dangling dereference. */
    var heap: map<Address, Timer>
    /** `Timer::s_numCreated_`. */
    var created: nat

    var timers: seq<Entry>
    var activeTimers: set<ActiveTimer>
    var callingExpiredTimers: bool
    var cancelingTimers: set<ActiveTimer>

    /** The time last passed to `resetTimerfd`, until a read of the timerfd takes it. */
    var armed: Option<int>
    /** This queue's functors waiting in the loop. */
    var functors: seq<Functor>
    /** The ids returned by `addTimer` so far, as the callers keep them. */
    var ids: map<int, TimerId>

    /** Timers owned by a running function: a parameter, or the `expired` vector. */
    ghost var held: set<Address>
    /** The time of the running batch, and how many timers there had been before it. */
    ghost var batchTime: int
    ghost var batchCreated: nat
    /** The sequence numbers of the timers deleted so far. */
    ghost var freed: set<int>
    ghost var plan: Plan
    ghost var cancelled: set<int>

    ghost function View(): Snapshot
      reads this
    {
      Snapshot(heap, created, timers, activeTimers, callingExpiredTimers, cancelingTimers, armed,
               functors, ids, held, batchTime, batchCreated, freed, plan, cancelled)
    }

    ghost predicate Valid()
      reads this
    {
      View().Valid()
    }

    constructor ()
      ensures Valid() && !callingExpiredTimers
      ensures plan == EMPTY_PLAN && heap == map[]
    {
      heap, created, timers, activeTimers := map[], 0, [], {};
      callingExpiredTimers, cancelingTimers := false, {};
      armed, functors, ids := None, [], map[];
      held, batchTime, batchCreated, freed, plan, cancelled := {}, 0, 0, {}, EMPTY_PLAN, {};
    }

    /** `operator new`: any free cell, possibly one that held a deleted timer. */
    method Allocate() returns (a: Address)
      ensures a.Cell? && a != NULLPTR && a !in heap
    {
      ghost var free := FreeCellExists(heap.Keys);
      assert Cell(free) !in heap;
      var n: nat :| 0 < n && Cell(n) !in heap;
      a := Cell(n);
    }

    /** `new Timer(cb, when, interval)`, together with the id the caller will get. */
    method Create(when: int, interval: real) returns (a: Address)
      requires View().Core()
      modifies this
      ensures a !in old(heap) && a.Cell? && a != NULLPTR
      ensures View() == Created(old(View()), a, when, interval) && View().Core()
    {
      hide Snapshot.Core;
      a := Allocate();
      CreatedCore(View(), a, when, interval);
      created := created + 1;
      heap := heap[a := NewTimer(when, interval, created)];
      ids := ids[created := TimerId(a, created)];
      held, plan := held + {a}, plan.(created := created);
    }

    /** `delete`: the timer is allocated, owned by the caller, and was never deleted before. */
    method Delete(a: Address)
      requires View().Core() && a in held
      modifies this
      ensures a in old(heap) && old(heap[a]).sequence !in old(freed)
      ensures View() == Deleted(old(View()), a) && View().Core()
    {
      hide Snapshot.Core;
      HeldAllocated(View(), a);
      DeletedCore(View(), a);
      freed, held := freed + {heap[a].sequence}, held - {a};
      heap := heap - {a};
    }

    /** `insert`: adds one new element to each index and says whether the earliest time changed. */
    method InsertTimer(a: Address) returns (earliestChanged: bool)
      requires View().Core() && a in held
      modifies this
      ensures a in old(heap) && View() == Inserted(old(View()), a) && View().Core()
      ensures |timers| == |old(timers)| + 1 && |activeTimers| == |old(activeTimers)| + 1
      ensures earliestChanged <==> old(timers) == [] || heap[a].expiration < old(timers)[0].when
      ensures timers[0].when == if earliestChanged then heap[a].expiration else old(timers)[0].when
    {
      hide Snapshot.Core;
      InsertedCore(View(), a);
      earliestChanged := false;
      var when := heap[a].expiration;
      if timers == [] || when < timers[0].when {
        earliestChanged := true;
      }
      timers := Insert(timers, Entry(when, a));
      activeTimers := activeTimers + {ActiveTimer(a, heap[a].sequence)};
      held := held - {a};
      plan := plan.(live := plan.live[heap[a].sequence := TaskOf(heap[a])]);
    }

    method AddTimerInLoop(a: Address)
      requires View().Core() && View().WakesUp() && a in held
      modifies this
      ensures a in old(heap) && View() == Inserted(old(View()), a).(armed := armed)
      ensures View().Core() && View().WakesUp() && (old(View()).AlarmExact() ==> View().AlarmExact())
      ensures armed == old(armed) || armed == Some(timers[0].when)
    {
      hide Snapshot.Core;
      var earliestChanged := InsertTimer(a);
      ghost var before := View();
      if earliestChanged {
        armed := Some(heap[a].expiration);
      }
      AlarmIsFree(before, View());
    }

    /**
      `cancelInLoop`, for any id, however stale or forged. It touches a timer only when the id is that
      very timer's and the timer is still scheduled; otherwise nothing changes but the set of deferred
      cancellations, and that only during a batch.
     */
    method CancelInLoop(id: TimerId)
      requires View().Core() && View().WakesUp()
      modifies this
      ensures View().Core() && View().WakesUp()
      ensures var was := old(View());
              var found := id.sequence in was.ids && was.ids[id.sequence] == id && id.sequence in was.plan.live;
              View() == if found && id.timer in was.heap then Removed(was, id.timer)
                        else if was.callingExpiredTimers then Deferred(was, id)
                        else was
      ensures old(id.sequence in ids && ids[id.sequence] == id && id.sequence in plan.live)
              ==> id.timer in old(heap) && old(heap[id.timer]).sequence == id.sequence
                  && id.timer !in held && |timers| == |old(timers)| - 1
    {
      hide Snapshot.Core, Erase;
      var timer := ActiveTimer(id.timer, id.sequence);
      CancelFinds(View(), id);
      if timer in activeTimers {
        RemovedCore(View(), id.timer);
        timers := Erase(timers, Entry(heap[id.timer].expiration, id.timer));
        freed, plan := freed + {id.sequence}, plan.(live := plan.live - {id.sequence});
        heap := heap - {id.timer};
        activeTimers := activeTimers - {timer};
      } else if callingExpiredTimers {
        DeferredCore(View(), id);
        cancelingTimers := cancelingTimers + {timer};
        cancelled := if id.sequence in ids && ids[id.sequence] != id then cancelled else cancelled + {id.sequence};
      }
    }

    /** What a call keeps while it runs inside a batch: the batch and its timers. */
    twostate predicate KeepsBatch()
      reads this
    {
      && callingExpiredTimers == old(callingExpiredTimers) && held == old(held)
      && batchTime == old(batchTime) && batchCreated == old(batchCreated)
      && forall a :: a in held ==> a in heap && a in old(heap) && heap[a] == old(heap[a])
    }

    /** `addTimer`: the caller gets an id with a new sequence number. */
    method AddTimer(when: int, interval: real, inLoop: bool) returns (id: TimerId)
      requires View().Core() && View().WakesUp()
      modifies this
      ensures View().Core() && View().WakesUp() && KeepsBatch() && cancelled == old(cancelled)
      ensures old(View()).AlarmExact() ==> View().AlarmExact()
      ensures plan == Exec(Frame(old(plan), old(cancelled)),
                           if inLoop then Add(when, interval) else PostAdd(when, interval)).plan
      ensures id.sequence == plan.created && id.sequence in ids && ids[id.sequence] == id
    {
      hide Snapshot.Core, Insert, Snapshot.Matches, WellFormed;
      HeldInHeap(View());
      KnownIds(View());
      var a := Create(when, interval);
      id := TimerId(a, heap[a].sequence);
      if inLoop {
        AddTimerInLoop(a);
      } else {
        PostedCore(View(), a);
        functors := functors + [Functor.AddTimerInLoop(a)];
        held, plan := held - {a}, plan.(queue := plan.queue + [Arrive(created, TaskOf(heap[a]))]);
      }
    }

    /** `cancel`, with the id that was handed out for timer `k`, or the default id. */
    method CancelTimer(k: int, inLoop: bool)
      requires View().Core() && View().WakesUp()
      modifies this
      ensures View().Core() && View().WakesUp() && KeepsBatch()
      ensures var f := Exec(Frame(old(plan), old(cancelled)), if inLoop then Cancel(k) else PostCancel(k));
              plan == f.plan && (callingExpiredTimers ==> cancelled == f.cancelled)
      ensures armed == old(armed)
      ensures !inLoop ==> timers == old(timers) && plan.live == old(plan.live)
                          && plan.queue == old(plan.queue) + [Revoke(if 1 <= k <= old(created) then k else 0)]
    {
      hide Snapshot.Core;
      HeldInHeap(View());
      KnownIds(View());
      var id := if k in ids then ids[k] else NO_TIMER_ID;
      if inLoop {
        CancelInLoop(id);
      } else {
        PostedCancelCore(View(), id);
        functors := functors + [Functor.CancelInLoop(id)];
        plan := plan.(queue := plan.queue + [Revoke(id.sequence)]);
      }
    }

    method Perform(c: Command)
      requires View().Core() && View().WakesUp()
      modifies this
      ensures View().Core() && View().WakesUp() && KeepsBatch()
      ensures plan == Exec(Frame(old(plan), old(cancelled)), c).plan
      ensures callingExpiredTimers ==> cancelled == Exec(Frame(old(plan), old(cancelled)), c).cancelled
    {
      hide Snapshot.Core;
      match c
      case Add(when, interval) => var _ := AddTimer(when, interval, true);
      case Cancel(k) => CancelTimer(k, true);
      case PostAdd(when, interval) => var _ := AddTimer(when, interval, false);
      case PostCancel(k) => CancelTimer(k, false);
    }

    /** The callback of one timer: any list of calls. */
    method PerformAll(cs: seq<Command>)
      requires View().Core() && View().WakesUp() && callingExpiredTimers
      modifies this
      ensures View().Core() && View().WakesUp() && KeepsBatch()
      ensures Frame(plan, cancelled) == ExecAll(Frame(old(plan), old(cancelled)), cs)
    {
      hide Snapshot.Core;
      HeldInHeap(View());
      for i := 0 to |cs|
        invariant View().Core() && View().WakesUp() && KeepsBatch()
        invariant Frame(plan, cancelled) == ExecAll(Frame(old(plan), old(cancelled)), cs[..i])
      {
        assert cs[..i + 1][..i] == cs[..i];
        Perform(cs[i]);
      }
      assert cs[..|cs|] == cs;
    }

    /** The loop runs its oldest functor. */
    method RunQueued()
      requires Valid() && !callingExpiredTimers
      modifies this
      ensures Valid() && !callingExpiredTimers && plan == Deliver(old(plan))
      ensures old(View()).AlarmExact() && old(plan.queue) != [] && old(plan.queue)[0].Arrive? ==> View().AlarmExact()
    {
      hide Snapshot.Core;
      FunctorsMatch(View());
      KnownIds(View());
      if functors != [] {
        var f := functors[0];
        PoppedCore(View());
        held := held + (if f.AddTimerInLoop? then {f.timer} else {});
        functors, plan := functors[1..], plan.(queue := plan.queue[1..]);
        match f
        case AddTimerInLoop(a) => AddTimerInLoop(a);
        case CancelInLoop(id) =>
          ghost var live := plan.live;
          CancelInLoop(id);
          assert plan.live == live - {id.sequence};
      }
    }

    /** `getExpired`: returns the due entries in order and erases each from both indices. */
    method GetExpired(now: int) returns (expired: seq<Entry>)
      requires View().Core() && !callingExpiredTimers
      modifies this
      ensures old(View()).IndicesAgree() && View() == Taken(old(View()), now) && View().Core()
      ensures expired == old(timers)[..ExpiredEnd(old(timers), now)]
    {
      hide Snapshot.Core, Snapshot.IndicesAgree, KeysOf;
      TakenCore(View(), now);
      InIndexInHeap(View());
      var end := ExpiredEnd(timers, now);
      expired := timers[..end];
      timers := timers[end..];
      KeysOfNone(heap);
      for i := 0 to |expired|
        modifies this`activeTimers
        invariant activeTimers == old(activeTimers) - KeysOf(heap, expired[..i])
      {
        KeysStep(heap, expired, i);
        activeTimers := activeTimers - {ActiveTimer(expired[i].timer, heap[expired[i].timer].sequence)};
      }
      assert expired[..|expired|] == expired;
      held := held + (set e | e in expired :: e.timer);
      plan := Start(plan, SequencesOf(heap, expired)).plan;
    }

    /** One timer of the batch in `reset`: it starts again, or it is deleted. */
    method Finish(a: Address, now: int)
      requires View().Core() && a in held && a in heap && 0 < now
      modifies this
      ensures View().Core()
      ensures var q := old(View());
              View() == if StartsAgain(q, a) then Inserted(Restarted(q, a, now), a) else Deleted(q, a)
    {
      hide Snapshot.Core;
      var timer := ActiveTimer(a, heap[a].sequence);
      if heap[a].repeat && timer !in cancelingTimers {
        RestartedCore(View(), a, now);
        heap := heap[a := heap[a].Restart(now)];
        ghost var _ := InsertTimer(a);
      } else {
        Delete(a);
      }
    }

    /**
      `reset`: the repeating timers of the batch that no callback cancelled start again, the others
      are deleted, and the alarm is set for the earliest expiration. `was` holds the batch's tasks.
     */
    method Reset(expired: seq<Entry>, now: int, ghost was: map<int, Task>, ghost fired: seq<int>)
      requires View().Core() && !callingExpiredTimers && 0 < now
      requires |fired| == |expired| && Holds(View(), expired, was, fired)
      requires DeferralsAgree(View()) && OnTime(View(), now)
      modifies this
      ensures Valid() && !callingExpiredTimers && functors == old(functors) && cancelled == old(cancelled)
      ensures plan == old(plan).(live := old(plan).live + Renewed(was, fired, cancelled, now))
      ensures forall k :: k in fired && k in was && was[k].interval > 0.0 && k !in cancelled ==>
                k in plan.live && plan.live[k] == Task(now + Ticks(was[k].interval), was[k].interval)
      ensures forall k :: k in plan.live && !(k in fired && k in was && was[k].interval > 0.0 && k !in cancelled) ==>
                k in old(plan).live && plan.live[k] == old(plan).live[k]
      ensures timers != [] && 0 < timers[0].when ==> View().AlarmExact()
      ensures expired == [] ==> timers == old(timers) && activeTimers == old(activeTimers) && heap == old(heap)
                                && (timers == [] || timers[0].when <= 0 ==> armed == old(armed))
    {
      hide Snapshot.Core, OnTime, Holds, DeferralsAgree, Inserted, Restarted, Deleted, StartsAgain, Renewed;
      RenewedNone(was, cancelled, now);
      assert old(plan).live + map[] == old(plan).live;
      assert expired[0..] == expired && fired[0..] == fired;
      for i := 0 to |expired|
        invariant View().Core() && !callingExpiredTimers && OnTime(View(), now)
        invariant Holds(View(), expired[i..], was, fired[i..]) && DeferralsAgree(View())
        invariant functors == old(functors) && cancelled == old(cancelled)
        invariant plan == old(plan).(live := old(plan).live + Renewed(was, fired[..i], cancelled, now))
        invariant expired == [] ==> timers == old(timers) && activeTimers == old(activeTimers) && heap == old(heap)
                                    && armed == old(armed)
      {
        BatchHead(View(), expired, was, fired, i);
        RenewedStep(was, fired, cancelled, now, i);
        BatchFinished(View(), expired, was, fired, i, now);
        Finish(expired[i].timer, now);
      }
      assert fired[..|expired|] == fired && expired[|expired|..] == [] && fired[|expired|..] == [];
      BatchOver(View(), was);
      RenewedMeans(was, fired, cancelled, now);
      SetAlarm(now);
    }

    /** The end of `reset`. */
    method SetAlarm(now: int)
      requires View().Core() && !callingExpiredTimers && 0 < now && held == {} && OnTime(View(), now)
      modifies this`armed
      ensures Valid() && (timers != [] && 0 < timers[0].when ==> View().AlarmExact())
      ensures timers == [] || timers[0].when <= 0 ==> armed == old(armed)
    {
      hide Snapshot.Core, OnTime;
      ghost var q := View();
      var nextExpire := INVALID_TIME;
      if timers != [] {
        ScheduledAllocated(q, timers[0]);
        nextExpire := heap[timers[0].timer].expiration;
      }
      if nextExpire > INVALID_TIME {
        armed := Some(nextExpire);
      }
      AlarmIsFree(q, View());
      OnTimeWakesUp(q, View(), now);
    }

    /** The callbacks of the batch, in order. */
    method RunCallbacks(expired: seq<Entry>, script: Script, ghost was: map<int, Task>, ghost fired: seq<int>)
      requires View().Core() && View().WakesUp() && callingExpiredTimers
      requires |fired| == |expired| && Holds(View(), expired, was, fired)
      modifies this
      ensures View().Core() && View().WakesUp() && callingExpiredTimers
      ensures batchTime == old(batchTime) && batchCreated == old(batchCreated)
      ensures Holds(View(), expired, was, fired)
      ensures Frame(plan, cancelled) == ExecAll(Frame(old(plan), old(cancelled)), Issued(fired, script))
      ensures expired == [] ==> timers == old(timers) && activeTimers == old(activeTimers) && heap == old(heap)
                                && armed == old(armed)
    {
      hide Snapshot.Core, Snapshot.WakesUp, Holds;
      ghost var start := Frame(plan, cancelled);
      for i := 0 to |expired|
        invariant View().Core() && View().WakesUp() && callingExpiredTimers
        invariant batchTime == old(batchTime) && batchCreated == old(batchCreated)
        invariant Holds(View(), expired, was, fired)
        invariant Frame(plan, cancelled) == ExecAll(start, Issued(fired[..i], script))
        invariant expired == [] ==> timers == old(timers) && activeTimers == old(activeTimers) && heap == old(heap)
                                    && armed == old(armed)
      {
        BatchMember(View(), expired, was, fired, i);
        ghost var q := View();
        PerformAll(Actions(script, heap[expired[i].timer].sequence));
        HoldsKept(q, View(), expired, was, fired);
        IssuedStep(start, fired, script, i);
      }
      assert fired[..|expired|] == fired;
    }

    /** The part of `handleRead` during which `callingExpiredTimers_` is set. */
    method CallExpired(expired: seq<Entry>, now: int, script: Script, ghost was: map<int, Task>, ghost fired: seq<int>)
      requires View().Core() && !callingExpiredTimers && (timers != [] ==> now < timers[0].when)
      requires |fired| == |expired| && Holds(View(), expired, was, fired) && forall k :: k in was ==> k <= created
      modifies this
      ensures View().Core() && !callingExpiredTimers && OnTime(View(), now)
      ensures Holds(View(), expired, was, fired) && DeferralsAgree(View())
      ensures Frame(plan, cancelled) == ExecAll(Frame(old(plan), {}), Issued(fired, script))
      ensures expired == [] ==> timers == old(timers) && activeTimers == old(activeTimers) && heap == old(heap)
                                && armed == old(armed)
    {
      hide Snapshot.Core, Snapshot.WakesUp, Holds, DeferralsAgree, OnTime, ExecAll, Issued;
      ghost var q := View();
      callingExpiredTimers := true;
      cancelingTimers := {};
      batchTime, batchCreated, cancelled := now, created, {};
      BatchBegins(q, View(), now, expired, was, fired);
      RunCallbacks(expired, script, was, fired);
      q := View();
      callingExpiredTimers := false;
      BatchEnds(q, View(), now, expired, was, fired);
    }

    /**
      `handleRead` at time `now`: takes the due timers, runs their callbacks in order, and resets.
      `script` is what the callbacks do; `consumed` says whether the read took the alarm. Returns the
      sequence numbers of the timers that ran.
     */
    method HandleRead(now: int, consumed: bool, script: Script) returns (fired: seq<int>)
      requires Valid() && !callingExpiredTimers && 0 < now
      modifies this
      ensures Valid() && !callingExpiredTimers
      ensures IsBatch(old(plan), now, fired) && plan == AfterBatch(old(plan), now, fired, script)
      ensures timers != [] && 0 < timers[0].when ==> View().AlarmExact()
      ensures fired == [] ==> timers == old(timers) && activeTimers == old(activeTimers) && heap == old(heap)
                              && (timers == [] || timers[0].when <= 0 ==> armed == if consumed then None else old(armed))
    {
      hide Snapshot.Core, Snapshot.IndicesAgree, Holds, DeferralsAgree, OnTime, IsBatch, Start, ExecAll, Issued;
      hide Renewed, Taken, ExpiredEnd;
      ghost var q := View();
      if consumed {
        armed := None;
      }
      AlarmIsFree(q, View());
      KnownIds(View());
      TakenHolds(View(), now);
      var expired := GetExpired(now);
      fired := SequencesOf(heap, expired);
      StartFrame(old(plan), fired);
      CallExpired(expired, now, script, old(plan).live, fired);
      Reset(expired, now, old(plan).live, fired);
    }

    /**
      The destructor, outside a batch: deletes every scheduled timer, each while it is still allocated.
      What remains allocated are the timers of calls that other threads left in the loop's queue.
     */
    method Destroy()
      requires Valid() && !callingExpiredTimers
      modifies this`heap
      ensures forall a :: a in heap <==> Functor.AddTimerInLoop(a) in functors
      ensures forall a :: a in heap ==> heap[a] == old(heap)[a]
    {
      hide Snapshot.Core, AddressesOf;
      ScheduledOrWaiting(View());
      for i := 0 to |timers|
        invariant heap == old(heap) - AddressesOf(timers[..i])
      {
        AddressesStep(timers, i);
        assert timers[i].timer in heap;
        heap := heap - {timers[i].timer};
      }
      assert timers[..|timers|] == timers;
    }

    /**
      Any run of the loop, from any state between two events. It is a run of the plan, whatever the
      callbacks do and whatever addresses are handed out; `log` says which timers ran at each event.
      Every state in between is valid too: the indices agree, every timer is conserved, and no
      wake-up is lost.
     */
    method Run(evs: seq<Event>) returns (log: seq<seq<int>>, ghost ps: seq<Plan>)
      requires Valid() && !callingExpiredTimers
      requires forall i :: 0 <= i < |evs| && evs[i].Expire? ==> 0 < evs[i].now
      modifies this
      ensures Valid() && !callingExpiredTimers
      ensures IsRun(ps, evs, log) && ps[0] == old(plan) && ps[|evs|] == plan && WellFormed(ps[0])
    {
      hide Snapshot.Core;
      PlanIsWellFormed(View());
      log, ps := [], [plan];
      for i := 0 to |evs|
        invariant Valid() && !callingExpiredTimers
        invariant IsRun(ps, evs[..i], log) && ps[0] == old(plan) && ps[i] == plan
      {
        ghost var p := plan;
        var fired := [];
        match evs[i] {
          case Call(c) =>
            ExecIgnoresCancelled(plan, cancelled, {}, c);
            Perform(c);
          case RunFunctor => RunQueued();
          case Expire(now, consumed, script) => fired := HandleRead(now, consumed, script);
        }
        assert Step(p, evs[i], fired, plan);
        assert evs[..i + 1] == evs[..i] + [evs[i]];
        log, ps := log + [fired], ps + [plan];
      }
      assert evs[..|evs|] == evs;
    }
  }
}
