/**
  From calls to callbacks, over whole runs: when a timer that was added runs, how it repeats, and what
  a `cancel` from another thread brings about.
 */
module TimerCalls {
  import opened Common
  import opened Timers
  import opened TimerPlan
  import opened TimerRuns

  // ----- The calls of a batch -----

  lemma {:induction false} IssuedConcat(a: seq<int>, b: seq<int>, script: Script)
    ensures Issued(a + b, script) == Issued(a, script) + Issued(b, script)
    decreases |b|
  {
    if b == [] {
      assert a + b == a;
    } else {
      var n := |b| - 1;
      assert (a + b)[..|a| + n] == a + b[..n];
      assert Issued(a + b, script) == Issued(a + b[..n], script) + Actions(script, b[n]);
      assert Issued(b, script) == Issued(b[..n], script) + Actions(script, b[n]);
      hide Issued, Actions;
      IssuedConcat(a, b[..n], script);
    }
  }

  lemma IssuedByOne(k: int, script: Script)
    ensures Issued([k], script) == Actions(script, k)
  {
    assert [k][..0] == [] && Issued([], script) == [];
  }

  /** Callbacks run one after the other, and each issues exactly its own calls, in their order. */
  lemma IssuedInOrder(a: seq<int>, k: int, b: seq<int>, script: Script)
    ensures k in script ==> Issued(a + [k] + b, script) == Issued(a, script) + script[k] + Issued(b, script)
    ensures k !in script ==> Issued(a + [k] + b, script) == Issued(a, script) + Issued(b, script)
  {
    hide Issued;
    IssuedConcat(a + [k], b, script);
    IssuedConcat(a, [k], script);
    IssuedByOne(k, script);
  }

  /** A callback of the batch cancels a timer of the plan: that timer is not alive after the batch. */
  lemma CallbackCancels(p: Plan, now: int, fired: seq<int>, script: Script, i: nat, k: int)
    requires WellFormed(p) && IsBatch(p, now, fired) && i < |fired|
    requires fired[i] in script && Cancel(k) in script[fired[i]] && 1 <= k <= p.created && !p.Queued(k)
    ensures !AfterBatch(p, now, fired, script).Alive(k)
  {
    hide Issued, Exec, ExecAll, WellFormed, IsBatch, AfterBatch;
    var a := Issued(fired[..i], script);
    var j :| 0 <= j < |script[fired[i]]| && script[fired[i]][j] == Cancel(k);
    assert fired == fired[..i] + [fired[i]] + fired[i + 1..];
    IssuedInOrder(fired[..i], fired[i], fired[i + 1..], script);
    var m := |a| + j;
    assert Issued(fired, script)[m] == Cancel(k) && m < |Issued(fired, script)|;
    ExecAllMonotone(Start(p, fired), Issued(fired, script)[..m]);
    CancelInBatchStops(p, now, fired, script, m, k);
  }

  // ----- Cancellation from another thread -----

  /** Event `ev` makes the call `PostCancel(k)` for a timer that exists by then. */
  ghost predicate PostsCancel(p: Plan, ev: Event, fired: seq<int>, k: int) {
    match ev
    case Call(c) => c == PostCancel(k) && 1 <= k <= p.created
    case RunFunctor => false
    case Expire(_, _, script) =>
      exists m :: 0 <= m < |Issued(fired, script)| && Issued(fired, script)[m] == PostCancel(k)
        && 1 <= k <= ExecAll(Start(p, fired), Issued(fired, script)[..m]).plan.created
  }

  /** How many functors the loop runs in these events. */
  function Functors(evs: seq<Event>): nat {
    if evs == [] then 0 else Count(evs[0].RunFunctor?) + Functors(evs[1..])
  }

  /** A cancellation waits at place `q`, and no add of the timer waits behind it. */
  ghost predicate Doomed(p: Plan, q: nat, k: int) {
    && q < |p.queue| && p.queue[q] == Revoke(k) && k <= p.created
    && forall i :: q < i < |p.queue| && p.queue[i].Arrive? ==> p.queue[i].k != k
  }

  /** A call or a batch leaves the queue as it is, up to new functors at its end for new timers. */
  lemma StepQueue(p: Plan, ev: Event, fired: seq<int>, p': Plan)
    requires Step(p, ev, fired, p') && !ev.RunFunctor?
    ensures p.queue <= p'.queue && p.created <= p'.created
    ensures forall i :: |p.queue| <= i < |p'.queue| && p'.queue[i].Arrive? ==> p.created < p'.queue[i].k
  {
    match ev
    case Call(c) =>
    case Expire(now, _, script) =>
      ExecAllMonotone(Start(p, fired), Issued(fired, script));
  }

  lemma StepDoomed(p: Plan, ev: Event, fired: seq<int>, p': Plan, q: nat, k: int)
    requires Step(p, ev, fired, p') && Doomed(p, q, k)
    ensures !ev.RunFunctor? ==> Doomed(p', q, k)
    ensures ev.RunFunctor? && 0 < q ==> Doomed(p', q - 1, k)
    ensures ev.RunFunctor? && q == 0 ==> !p'.Alive(k) && k <= p'.created
  {
    if !ev.RunFunctor? {
      StepQueue(p, ev, fired, p');
      hide Step;
      assert forall i :: q < i < |p.queue| ==> p'.queue[i] == p.queue[i];
    } else {
      assert forall i :: 0 <= i < |p'.queue| ==> p'.queue[i] == p.queue[i + 1];
    }
  }

  /** Once the functor of a cancellation has run, its timer never runs again. */
  lemma {:induction false} DoomedDies(ps: seq<Plan>, evs: seq<Event>, log: seq<seq<int>>, a: nat, j: nat, q: nat, k: int)
    requires IsRun(ps, evs, log) && a <= j <= |evs| && Doomed(ps[a], q, k) && q < Functors(evs[a..j])
    ensures !ps[j].Alive(k) && (j < |evs| ==> k !in log[j])
    decreases j - a
  {
    assert evs[a..j][1..] == evs[a + 1..j];
    assert Step(ps[a], evs[a], log[a], ps[a + 1]);
    StepDoomed(ps[a], evs[a], log[a], ps[a + 1], q, k);
    if evs[a].RunFunctor? && q == 0 {
      DeadStaysDead(ps, evs, log, a + 1, j, k);
    } else {
      DoomedDies(ps, evs, log, a + 1, j, if evs[a].RunFunctor? then q - 1 else q, k);
    }
  }

  lemma PostedInBatch(p: Plan, fired: seq<int>, script: Script, m: nat, k: int) returns (q: nat)
    requires m < |Issued(fired, script)| && Issued(fired, script)[m] == PostCancel(k)
    requires 1 <= k <= ExecAll(Start(p, fired), Issued(fired, script)[..m]).plan.created
    ensures Doomed(ExecAll(Start(p, fired), Issued(fired, script)).plan, q, k)
  {
    var cs := Issued(fired, script);
    var f := ExecAll(Start(p, fired), cs[..m]);
    var g := Exec(f, PostCancel(k));
    assert cs[..m + 1][..m] == cs[..m] && ExecAll(Start(p, fired), cs[..m + 1]) == g;
    assert cs == cs[..m + 1] + cs[m + 1..];
    ExecAllConcat(Start(p, fired), cs[..m + 1], cs[m + 1..]);
    ExecAllMonotone(g, cs[m + 1..]);
    hide ExecAll, Issued;
    q := |f.plan.queue|;
    assert g.plan.queue[q] == Revoke(k);
  }

  lemma PostedIsDoomed(p: Plan, ev: Event, fired: seq<int>, p': Plan, k: int) returns (q: nat)
    requires Step(p, ev, fired, p') && PostsCancel(p, ev, fired, k)
    ensures Doomed(p', q, k)
  {
    match ev
    case Call(_) =>
      q := |p.queue|;
    case Expire(_, _, script) =>
      var m :| 0 <= m < |Issued(fired, script)| && Issued(fired, script)[m] == PostCancel(k)
        && 1 <= k <= ExecAll(Start(p, fired), Issued(fired, script)[..m]).plan.created;
      q := PostedInBatch(p, fired, script, m, k);
  }

  /**
    A `cancel` from another thread works, whoever makes it and whatever else happens: once the functors
    in the queue after the call have run, the timer is gone for ever, also when it was still to be added.
   */
  lemma PostedCancelStops(ps: seq<Plan>, evs: seq<Event>, log: seq<seq<int>>, i: nat, j: nat, k: int)
    requires IsRun(ps, evs, log) && i < j <= |evs| && PostsCancel(ps[i], evs[i], log[i], k)
    requires |ps[i + 1].queue| <= Functors(evs[i + 1..j])
    ensures !ps[j].Alive(k) && (j < |evs| ==> k !in log[j])
  {
    assert Step(ps[i], evs[i], log[i], ps[i + 1]);
    var q := PostedIsDoomed(ps[i], evs[i], log[i], ps[i + 1], k);
    DoomedDies(ps, evs, log, i + 1, j, q, k);
  }

  /** The call itself changes no timer, and its functor comes after those already in the queue. */
  lemma PostCancelStops(ps: seq<Plan>, evs: seq<Event>, log: seq<seq<int>>, i: nat, j: nat, k: int)
    requires IsRun(ps, evs, log) && i < j <= |evs| && evs[i] == Call(PostCancel(k)) && 1 <= k <= ps[i].created
    ensures ps[i + 1].live == ps[i].live && (forall c :: ps[i + 1].Queued(c) <==> ps[i].Queued(c))
    ensures |ps[i].queue| < Functors(evs[i + 1..j]) ==> !ps[j].Alive(k) && (j < |evs| ==> k !in log[j])
  {
    assert Step(ps[i], evs[i], log[i], ps[i + 1]);
    var p, p' := ps[i], ps[i + 1];
    assert p'.queue[..|p.queue|] == p.queue;
    forall c ensures p'.Queued(c) <==> p.Queued(c) {
      if p.Queued(c) {
        var n :| 0 <= n < |p.queue| && p.queue[n].Arrive? && p.queue[n].k == c;
        assert p'.queue[n] == p.queue[n];
      }
    }
    if |p.queue| < Functors(evs[i + 1..j]) {
      PostedCancelStops(ps, evs, log, i, j, k);
    }
  }

  lemma {:induction false} RevokeWasIssued(f: Frame, cs: seq<Command>, k: int) returns (m: nat)
    requires 1 <= k && Revoke(k) !in f.plan.queue && Revoke(k) in ExecAll(f, cs).plan.queue
    ensures m < |cs| && cs[m] == PostCancel(k) && k <= ExecAll(f, cs[..m]).plan.created
  {
    var n := |cs| - 1;
    if Revoke(k) in ExecAll(f, cs[..n]).plan.queue {
      m := RevokeWasIssued(f, cs[..n], k);
      assert cs[..n][..m] == cs[..m];
    } else {
      m := n;
    }
  }

  lemma StepRevokeWasPosted(p: Plan, ev: Event, fired: seq<int>, p': Plan, k: int)
    requires Step(p, ev, fired, p') && 1 <= k && Revoke(k) !in p.queue && Revoke(k) in p'.queue
    ensures PostsCancel(p, ev, fired, k)
  {
    match ev
    case Call(c) =>
    case RunFunctor =>
    case Expire(now, _, script) =>
      var m := RevokeWasIssued(Start(p, fired), Issued(fired, script), k);
  }

  /** Conversely, a functor cancels only the timer that some caller asked to cancel. */
  lemma {:induction false} RevokeWasPosted(ps: seq<Plan>, evs: seq<Event>, log: seq<seq<int>>, i: nat, j: nat, k: int)
    requires IsRun(ps, evs, log) && i <= j <= |evs| && 1 <= k && Revoke(k) !in ps[i].queue && Revoke(k) in ps[j].queue
    ensures exists m :: i <= m < j && PostsCancel(ps[m], evs[m], log[m], k)
    decreases j
  {
    assert i < j;
    assert Step(ps[j - 1], evs[j - 1], log[j - 1], ps[j]);
    if Revoke(k) in ps[j - 1].queue {
      RevokeWasPosted(ps, evs, log, i, j - 1, k);
    } else {
      StepRevokeWasPosted(ps[j - 1], evs[j - 1], log[j - 1], ps[j], k);
    }
  }

  // ----- From the add to the callback -----

  /** Someone asks, in this event, to cancel timer `k`: in the loop thread or in another one. */
  ghost predicate AsksToCancel(p: Plan, ev: Event, fired: seq<int>, k: int) {
    || PostsCancel(p, ev, fired, k)
    || match ev
       case Call(c) => c == Cancel(k)
       case RunFunctor => false
       case Expire(_, _, script) => Cancel(k) in Issued(fired, script)
  }

  lemma NobodyCancels(ps: seq<Plan>, evs: seq<Event>, log: seq<seq<int>>, i: nat, m: nat, k: int)
    requires IsRun(ps, evs, log) && i <= m < |evs| && 1 <= k && Revoke(k) !in ps[i].queue
    requires forall n :: i <= n <= m ==> !AsksToCancel(ps[n], evs[n], log[n], k)
    ensures !Cancels(ps[m], evs[m], log[m], k)
  {
    if Cancels(ps[m], evs[m], log[m], k) {
      assert !AsksToCancel(ps[m], evs[m], log[m], k);
      assert ps[m].queue[0] in ps[m].queue;
      RevokeWasPosted(ps, evs, log, i, m, k);
    }
  }

  /** A scheduled timer that nobody asks to cancel runs by the first batch that reaches its due time. */
  lemma UncancelledRuns(ps: seq<Plan>, evs: seq<Event>, log: seq<seq<int>>, i: nat, j: nat, k: int)
    requires IsRun(ps, evs, log) && WellFormed(ps[0]) && i <= j < |evs| && k in ps[i].live && Revoke(k) !in ps[i].queue
    requires forall m :: i <= m < j ==> !AsksToCancel(ps[m], evs[m], log[m], k)
    requires evs[j].Expire? && ps[i].live[k].due <= evs[j].now
    ensures exists m :: i <= m <= j && k in log[m]
  {
    RunWellFormed(ps, evs, log, i);
    forall m | i <= m < j ensures !Cancels(ps[m], evs[m], log[m], k) {
      NobodyCancels(ps, evs, log, i, m, k);
    }
    RunsWhenDue(ps, evs, log, i, j, k);
  }

  /** Wherever timer `k` is in the plan, it is there with this task. */
  ghost predicate Planned(p: Plan, k: int, task: Task) {
    && (k in p.live ==> p.live[k] == task)
    && (forall i :: 0 <= i < |p.queue| && p.queue[i].Arrive? && p.queue[i].k == k ==> p.queue[i].task == task)
  }

  lemma StepPlanned(p: Plan, ev: Event, fired: seq<int>, p': Plan, k: int, task: Task)
    requires WellFormed(p) && Step(p, ev, fired, p') && k <= p.created && Planned(p, k, task) && k !in fired
    ensures Planned(p', k, task)
  {
    if ev.RunFunctor? {
      assert forall i :: 0 <= i < |p'.queue| ==> p'.queue[i] == p.queue[i + 1];
    } else {
      StepQueue(p, ev, fired, p');
      assert forall i :: 0 <= i < |p.queue| ==> p'.queue[i] == p.queue[i];
      if k in p'.live && ev.Expire? {
        ExecAllMonotone(Start(p, fired), Issued(fired, ev.script));
      }
    }
  }

  lemma {:induction false} PlannedUntilItRuns(
      ps: seq<Plan>, evs: seq<Event>, log: seq<seq<int>>, i: nat, j: nat, k: int, task: Task)
    requires IsRun(ps, evs, log) && WellFormed(ps[0]) && i <= j <= |evs| && k <= ps[i].created && Planned(ps[i], k, task)
    requires forall m :: i <= m < j ==> k !in log[m]
    ensures Planned(ps[j], k, task) && k <= ps[j].created
    decreases j
  {
    if i < j {
      PlannedUntilItRuns(ps, evs, log, i, j - 1, k, task);
      RunWellFormed(ps, evs, log, j - 1);
      StepWellFormed(ps[j - 1], evs[j - 1], log[j - 1], ps[j]);
      StepPlanned(ps[j - 1], evs[j - 1], log[j - 1], ps[j], k, task);
    }
  }

  /** Event `ev` is the call that adds timer `k`, due at `when`, in the loop thread or in another one. */
  ghost predicate Adds(p: Plan, ev: Event, k: int, when: int, interval: real) {
    k == p.created + 1 && (ev == Call(Add(when, interval)) || ev == Call(PostAdd(when, interval)))
  }

  lemma AddedIsPlanned(p: Plan, ev: Event, fired: seq<int>, p': Plan, k: int, when: int, interval: real)
    requires WellFormed(p) && Step(p, ev, fired, p') && Adds(p, ev, k, when, interval)
    ensures Planned(p', k, Task(when, interval)) && k == p'.created && Revoke(k) !in p'.queue
    ensures ev == Call(Add(when, interval)) ==> k in p'.live
    ensures ev == Call(PostAdd(when, interval)) ==> p'.queue == p.queue + [Arrive(k, Task(when, interval))]
    ensures !p.Alive(k)
  {
    forall i | 0 <= i < |p'.queue| ensures p'.queue[i] != Revoke(k) {
      assert i < |p.queue| ==> p'.queue[i] == p.queue[i];
    }
  }

  /** A timer runs for the first time with the task it was added with, and not before the time asked for. */
  lemma AddedRunsOnTime(ps: seq<Plan>, evs: seq<Event>, log: seq<seq<int>>, i: nat, j: nat, k: int, when: int, interval: real)
    requires IsRun(ps, evs, log) && WellFormed(ps[0]) && i < j < |evs| && Adds(ps[i], evs[i], k, when, interval)
    requires k in log[j] && forall m :: i < m < j ==> k !in log[m]
    ensures evs[j].Expire? && when <= evs[j].now && k in ps[j].live && ps[j].live[k] == Task(when, interval)
  {
    RunWellFormed(ps, evs, log, i);
    assert Step(ps[i], evs[i], log[i], ps[i + 1]);
    AddedIsPlanned(ps[i], evs[i], log[i], ps[i + 1], k, when, interval);
    PlannedUntilItRuns(ps, evs, log, i + 1, j, k, Task(when, interval));
    NeverEarlyNeverTwiceInABatch(ps, evs, log, j, k);
  }

  /** A functor that adds a timer is run once those before it have run. */
  lemma {:induction false} ArrivalComes(
      ps: seq<Plan>, evs: seq<Event>, log: seq<seq<int>>, a: nat, j: nat, q: nat, k: int, task: Task)
    returns (b: nat)
    requires IsRun(ps, evs, log) && a <= j <= |evs| && q < |ps[a].queue| && ps[a].queue[q] == Arrive(k, task)
    requires q < Functors(evs[a..j])
    ensures a < b <= j && k in ps[b].live && ps[b].live[k] == task
    decreases j - a
  {
    assert evs[a..j][1..] == evs[a + 1..j];
    assert Step(ps[a], evs[a], log[a], ps[a + 1]);
    if evs[a].RunFunctor? && q == 0 {
      b := a + 1;
    } else {
      if !evs[a].RunFunctor? {
        StepQueue(ps[a], evs[a], log[a], ps[a + 1]);
      }
      b := ArrivalComes(ps, evs, log, a + 1, j, if evs[a].RunFunctor? then q - 1 else q, k, task);
    }
  }

  /**
    A timer that is added in the loop thread and that nobody asks to cancel runs by the first batch that
    reaches the time asked for.
   */
  lemma AddedRuns(ps: seq<Plan>, evs: seq<Event>, log: seq<seq<int>>, i: nat, j: nat, k: int, when: int, interval: real)
    requires IsRun(ps, evs, log) && WellFormed(ps[0]) && i < j < |evs|
    requires Adds(ps[i], evs[i], k, when, interval) && evs[i] == Call(Add(when, interval))
    requires forall m :: i < m < j ==> !AsksToCancel(ps[m], evs[m], log[m], k)
    requires evs[j].Expire? && when <= evs[j].now
    ensures exists m :: i < m <= j && k in log[m]
  {
    RunWellFormed(ps, evs, log, i);
    assert Step(ps[i], evs[i], log[i], ps[i + 1]);
    AddedIsPlanned(ps[i], evs[i], log[i], ps[i + 1], k, when, interval);
    UncancelledRuns(ps, evs, log, i + 1, j, k);
  }

  /** The same for a timer added in another thread, once the functors queued before it, and its own, have run. */
  lemma PostedAddRuns(ps: seq<Plan>, evs: seq<Event>, log: seq<seq<int>>, i: nat, j: nat, k: int, when: int, interval: real)
    requires IsRun(ps, evs, log) && WellFormed(ps[0]) && i < j < |evs|
    requires Adds(ps[i], evs[i], k, when, interval) && evs[i] == Call(PostAdd(when, interval))
    requires |ps[i].queue| < Functors(evs[i + 1..j])
    requires forall m :: i < m < j ==> !AsksToCancel(ps[m], evs[m], log[m], k)
    requires evs[j].Expire? && when <= evs[j].now
    ensures exists m :: i < m <= j && k in log[m]
  {
    RunWellFormed(ps, evs, log, i);
    assert Step(ps[i], evs[i], log[i], ps[i + 1]);
    AddedIsPlanned(ps[i], evs[i], log[i], ps[i + 1], k, when, interval);
    var b := ArrivalComes(ps, evs, log, i + 1, j, |ps[i].queue|, k, Task(when, interval));
    if Revoke(k) in ps[b].queue {
      RevokeWasPosted(ps, evs, log, i + 1, b, k);
      var m :| i + 1 <= m < b && PostsCancel(ps[m], evs[m], log[m], k);
      assert AsksToCancel(ps[m], evs[m], log[m], k);
    }
    UncancelledRuns(ps, evs, log, b, j, k);
  }

  // ----- One-shot and repeating timers -----

  /** A timer whose interval is not positive runs at most once in any run. */
  lemma OneShotRunsOnce(ps: seq<Plan>, evs: seq<Event>, log: seq<seq<int>>, i: nat, j: nat, k: int)
    requires IsRun(ps, evs, log) && WellFormed(ps[0]) && i < j <= |evs|
    requires k in log[i] && k in ps[i].live && ps[i].live[k].interval <= 0.0
    ensures !ps[j].Alive(k) && (j < |evs| ==> k !in log[j])
  {
    RunWellFormed(ps, evs, log, i);
    assert Step(ps[i], evs[i], log[i], ps[i + 1]);
    StepKeepsTask(ps[i], evs[i], log[i], ps[i + 1], k);
    StepWellFormed(ps[i], evs[i], log[i], ps[i + 1]);
    DeadStaysDead(ps, evs, log, i + 1, j, k);
  }

  /**
    A timer with a positive interval that ran, and that nobody asks to cancel, runs again by the first
    batch that comes at least the interval later.
   */
  lemma RepeatsAfterInterval(ps: seq<Plan>, evs: seq<Event>, log: seq<seq<int>>, i: nat, j: nat, k: int)
    requires IsRun(ps, evs, log) && WellFormed(ps[0]) && i < j < |evs| && k in log[i]
    requires k in ps[i].live && ps[i].live[k].interval > 0.0 && Revoke(k) !in ps[i].queue
    requires forall m :: i <= m < j ==> !AsksToCancel(ps[m], evs[m], log[m], k)
    requires evs[j].Expire? && evs[i].Expire? && evs[i].now + Ticks(ps[i].live[k].interval) <= evs[j].now
    ensures exists m :: i < m <= j && k in log[m]
  {
    RunWellFormed(ps, evs, log, i);
    assert Step(ps[i], evs[i], log[i], ps[i + 1]);
    NobodyCancels(ps, evs, log, i, i, k);
    StepSpares(ps[i], evs[i], log[i], ps[i + 1], k);
    if Revoke(k) in ps[i + 1].queue {
      StepRevokeWasPosted(ps[i], evs[i], log[i], ps[i + 1], k);
      assert false;
    }
    UncancelledRuns(ps, evs, log, i + 1, j, k);
  }
}
