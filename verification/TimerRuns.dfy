/**
  Properties of every run of the plan, hence of every run of the timer queue: cancellation, firing
  counts and times, and the progress of batches.
 */
module TimerRuns {
  import opened Timers
  import opened TimerPlan

  // ----- What commands can and cannot bring about -----

  /** Commands never revive a timer, never drop a queued functor, and never undo a cancellation. */
  lemma {:induction false} ExecAllMonotone(f: Frame, cs: seq<Command>)
    ensures var g := ExecAll(f, cs);
            && f.plan.created <= g.plan.created && f.cancelled <= g.cancelled && f.plan.queue <= g.plan.queue
            && (forall k :: k in g.plan.live && k <= f.plan.created ==> k in f.plan.live && g.plan.live[k] == f.plan.live[k])
            && (forall i :: |f.plan.queue| <= i < |g.plan.queue| && g.plan.queue[i].Arrive? ==> f.plan.created < g.plan.queue[i].k)
  {
    if cs != [] {
      ExecAllMonotone(f, cs[..|cs| - 1]);
    }
  }

  /** Without a `Cancel` for it, a scheduled timer stays scheduled as it is. */
  lemma {:induction false} ExecAllSpares(f: Frame, cs: seq<Command>, k: int)
    requires 1 <= k <= f.plan.created && Cancel(k) !in cs
    ensures var g := ExecAll(f, cs);
            && (k in f.plan.live ==> k in g.plan.live && g.plan.live[k] == f.plan.live[k])
            && (k in g.cancelled ==> k in f.cancelled)
  {
    if cs != [] {
      var n := |cs| - 1;
      assert cs[n] in cs && cs[..n] <= cs;
      ExecAllSpares(f, cs[..n], k);
      ExecAllMonotone(f, cs[..n]);
    }
  }

  lemma {:induction false} ExecAllWellFormed(f: Frame, cs: seq<Command>)
    requires WellFormed(f.plan)
    ensures WellFormed(ExecAll(f, cs).plan)
  {
    if cs != [] {
      hide WellFormed;
      ExecAllWellFormed(f, cs[..|cs| - 1]);
      ExecWellFormed(ExecAll(f, cs[..|cs| - 1]), cs[|cs| - 1]);
    }
  }

  lemma ExecWellFormed(f: Frame, c: Command)
    requires WellFormed(f.plan)
    ensures WellFormed(Exec(f, c).plan) && f.plan.created <= Exec(f, c).plan.created
  {}

  lemma DeliverWellFormed(p: Plan)
    requires WellFormed(p)
    ensures WellFormed(Deliver(p)) && p.created == Deliver(p).created
  {}

  lemma StepWellFormed(p: Plan, ev: Event, fired: seq<int>, p': Plan)
    requires WellFormed(p) && Step(p, ev, fired, p')
    ensures WellFormed(p') && p.created <= p'.created
  {
    hide WellFormed;
    match ev
    case Call(c) =>
      ExecWellFormed(Frame(p, {}), c);
    case RunFunctor =>
      DeliverWellFormed(p);
    case Expire(now, _, script) =>
      BatchWellFormed(p, now, fired, script);
  }

  lemma BatchWellFormed(p: Plan, now: int, fired: seq<int>, script: Script)
    requires WellFormed(p) && forall k :: k in fired ==> k in p.live
    ensures WellFormed(AfterBatch(p, now, fired, script)) && p.created <= AfterBatch(p, now, fired, script).created
  {
    var f, r := ExecAll(Start(p, fired), Issued(fired, script)), AfterBatch(p, now, fired, script);
    ExecAllWellFormed(Start(p, fired), Issued(fired, script));
    ExecAllMonotone(Start(p, fired), Issued(fired, script));
    hide ExecAll, Issued;
    forall i | 0 <= i < |r.queue| && r.queue[i].Arrive? ensures r.queue[i].k !in r.live {
      assert i < |p.queue| ==> p.queue[i] == r.queue[i];
    }
  }

  /** A timer that can no longer run stays that way, and its callback is not called. */
  lemma StepDead(p: Plan, ev: Event, fired: seq<int>, p': Plan, k: int)
    requires Step(p, ev, fired, p') && k <= p.created && !p.Alive(k)
    ensures !p'.Alive(k) && k !in fired && p.created <= p'.created
  {
    match ev
    case Call(c) =>
      assert ExecAll(Frame(p, {}), []) == Frame(p, {}) && [c][..0] == [];
      assert ExecAll(Frame(p, {}), [c]).plan == p';
      ExecAllMonotone(Frame(p, {}), [c]);
    case RunFunctor =>
      if p.queue != [] {
        assert forall i :: 0 <= i < |p'.queue| ==> p'.queue[i] == p.queue[i + 1];
      }
    case Expire(now, _, script) =>
      ExecAllMonotone(Start(p, fired), Issued(fired, script));
  }

  lemma {:induction false} DeadStaysDead(ps: seq<Plan>, evs: seq<Event>, log: seq<seq<int>>, i: nat, j: nat, k: int)
    requires IsRun(ps, evs, log) && i <= j <= |evs| && k <= ps[i].created && !ps[i].Alive(k)
    ensures !ps[j].Alive(k) && k <= ps[j].created
    ensures j < |evs| ==> k !in log[j]
    decreases j
  {
    if i < j {
      DeadStaysDead(ps, evs, log, i, j - 1, k);
      StepDead(ps[j - 1], evs[j - 1], log[j - 1], ps[j], k);
    }
    if j < |evs| {
      StepDead(ps[j], evs[j], log[j], ps[j + 1], k);
    }
  }

  // ----- Alive means that some run still fires the timer -----

  /** A run from plan `p` that calls the callback of timer `k` at its event `j`. */
  ghost predicate Fires(p: Plan, k: int, ps: seq<Plan>, evs: seq<Event>, log: seq<seq<int>>, j: nat) {
    && IsRun(ps, evs, log) && ps[0] == p && (forall i :: 0 <= i < |evs| && evs[i].Expire? ==> 0 < evs[i].now)
    && j < |log| && k in log[j]
  }

  /** Some run of the loop from plan `p` calls the callback of timer `k`. */
  ghost predicate CanRun(p: Plan, k: int) {
    exists ps, evs, log, j: nat :: Fires(p, k, ps, evs, log, j)
  }

  lemma {:induction false} LatestDue(p: Plan, ks: set<int>, some: int) returns (k: int)
    requires some in ks && ks <= p.live.Keys
    ensures k in ks && forall j :: j in ks ==> p.live[j].due <= p.live[k].due
  {
    var others := ks - {some};
    assert forall j :: j in ks ==> j == some || j in others;
    k := some;
    if next :| next in others {
      var rest := LatestDue(p, others, next);
      if p.live[some].due <= p.live[rest].due {
        k := rest;
      }
    }
  }

  lemma {:induction false} SortedByDue(p: Plan, ks: set<int>) returns (fired: seq<int>)
    requires ks <= p.live.Keys
    ensures (forall k :: k in fired <==> k in ks) && Distinct(fired)
    ensures forall i, j :: 0 <= i < j < |fired| ==>
              fired[i] in p.live && fired[j] in p.live && p.live[fired[i]].due <= p.live[fired[j]].due
  {
    fired := [];
    if some :| some in ks {
      var last := LatestDue(p, ks, some);
      var before := SortedByDue(p, ks - {last});
      assert forall i :: 0 <= i < |before| ==> before[i] in before;
      fired := before + [last];
    }
  }

  /** At every moment the due timers can be listed as a batch. */
  lemma BatchExists(p: Plan, now: int) returns (fired: seq<int>)
    ensures IsBatch(p, now, fired)
  {
    fired := SortedByDue(p, set k | k in p.live && p.live[k].due <= now);
    assert forall i :: 0 <= i < |fired| ==> fired[i] in fired;
  }

  lemma CanRunLater(p: Plan, p': Plan, k: int)
    requires Step(p, RunFunctor, [], p') && CanRun(p', k)
    ensures CanRun(p, k)
  {
    var ps, evs, log, j: nat :| Fires(p', k, ps, evs, log, j);
    hide Step;
    var qs, fs, ls := [p] + ps, [RunFunctor] + evs, [[]] + log;
    forall i | 0 <= i < |fs| ensures Step(qs[i], fs[i], ls[i], qs[i + 1]) {
      assert i > 0 ==> Step(ps[i - 1], evs[i - 1], log[i - 1], ps[i]);
    }
    assert Fires(p, k, qs, fs, ls, j + 1);
  }

  lemma ScheduledCanRun(p: Plan, k: int)
    requires k in p.live
    ensures CanRun(p, k)
  {
    var now := if p.live[k].due < 1 then 1 else p.live[k].due;
    var fired := BatchExists(p, now);
    var ps, evs, log := [p, AfterBatch(p, now, fired, map[])], [Expire(now, true, map[])], [fired];
    assert Step(ps[0], evs[0], log[0], ps[1]);
    assert Fires(p, k, ps, evs, log, 0);
  }

  lemma {:induction false} QueuedCanRun(p: Plan, k: int)
    requires WellFormed(p) && p.Queued(k)
    ensures CanRun(p, k)
    decreases |p.queue|
  {
    var p' := Deliver(p);
    var i :| 0 <= i < |p.queue| && p.queue[i].Arrive? && p.queue[i].k == k;
    if i == 0 {
      ScheduledCanRun(p', k);
    } else {
      assert p'.queue[i - 1] == p.queue[i];
      StepWellFormed(p, RunFunctor, [], p');
      QueuedCanRun(p', k);
    }
    CanRunLater(p, p', k);
  }

  /** A timer that was created can still run, in some continuation, if and only if it is alive. */
  lemma AliveIffCanRun(p: Plan, k: int)
    requires WellFormed(p) && k <= p.created
    ensures p.Alive(k) <==> CanRun(p, k)
  {
    if k in p.live {
      ScheduledCanRun(p, k);
    } else if p.Queued(k) {
      QueuedCanRun(p, k);
    } else if CanRun(p, k) {
      var ps, evs, log, j: nat :| Fires(p, k, ps, evs, log, j);
      DeadStaysDead(ps, evs, log, 0, j, k);
    }
  }

  // ----- Cancellation -----

  /**
    Cancelling between batches: afterwards the timer can still run if and only if its own `addTimer`
    is still waiting in the queue, where the cancellation does not find it.
   */
  lemma CancelStops(p: Plan, k: int)
    requires WellFormed(p) && 1 <= k <= p.created
    ensures CanRun(Exec(Frame(p, {}), Cancel(k)).plan, k) <==> p.Queued(k)
    ensures Exec(Frame(p, {}), Cancel(k)).plan.Alive(k) <==> p.Queued(k)
  {
    var p' := Exec(Frame(p, {}), Cancel(k)).plan;
    StepWellFormed(p, Call(Cancel(k)), [], p');
    AliveIffCanRun(p', k);
  }

  /** The same for a cancellation handed over by another thread, when its functor runs. */
  lemma RevokeStops(p: Plan, k: int)
    requires WellFormed(p) && p.queue != [] && p.queue[0] == Revoke(k)
    ensures CanRun(Deliver(p), k) <==> p.Queued(k)
    ensures Deliver(p).Alive(k) <==> p.Queued(k)
  {
    StepWellFormed(p, RunFunctor, [], Deliver(p));
    AliveIffCanRun(Deliver(p), k);
    if p.Queued(k) {
      var i :| 0 <= i < |p.queue| && p.queue[i].Arrive? && p.queue[i].k == k;
      assert Deliver(p).queue[i - 1] == p.queue[i];
    }
  }

  /**
    Cancelling from a callback: `m` commands of the batch were issued before it. The timer may be of
    this very batch, even the one whose callback runs, or have been added during it. After the batch
    it can run again if and only if its own `addTimer` was still waiting in the queue.
   */
  lemma CancelInBatchStops(p: Plan, now: int, fired: seq<int>, script: Script, m: nat, k: int)
    requires WellFormed(p) && IsBatch(p, now, fired)
    requires m < |Issued(fired, script)| && Issued(fired, script)[m] == Cancel(k)
    requires var f := ExecAll(Start(p, fired), Issued(fired, script)[..m]); 1 <= k <= f.plan.created
    ensures CanRun(AfterBatch(p, now, fired, script), k)
            <==> ExecAll(Start(p, fired), Issued(fired, script)[..m]).plan.Queued(k)
    ensures AfterBatch(p, now, fired, script).Alive(k)
            <==> ExecAll(Start(p, fired), Issued(fired, script)[..m]).plan.Queued(k)
  {
    hide Exec, ExecAll, Issued, Start, WellFormed, AfterBatch;
    AliveAfterCancel(p, now, fired, script, m, k);
    BatchWellFormed(p, now, fired, script);
    CreatedGrows(p, now, fired, script, m);
    AliveIffCanRun(AfterBatch(p, now, fired, script), k);
  }

  lemma AliveAfterCancel(p: Plan, now: int, fired: seq<int>, script: Script, m: nat, k: int)
    requires WellFormed(p) && IsBatch(p, now, fired)
    requires m < |Issued(fired, script)| && Issued(fired, script)[m] == Cancel(k)
    requires var f := ExecAll(Start(p, fired), Issued(fired, script)[..m]); 1 <= k <= f.plan.created
    ensures AfterBatch(p, now, fired, script).Alive(k)
            <==> ExecAll(Start(p, fired), Issued(fired, script)[..m]).plan.Queued(k)
  {
    var cs := Issued(fired, script);
    var start := Start(p, fired);
    var f := ExecAll(start, cs[..m]);
    var g := Exec(f, Cancel(k));
    var h := ExecAll(start, cs);
    assert cs[..m + 1][..m] == cs[..m] && ExecAll(start, cs[..m + 1]) == g;
    assert cs == cs[..m + 1] + cs[m + 1..];
    ExecAllConcat(start, cs[..m + 1], cs[m + 1..]);
    ExecAllMonotone(start, cs[..m]);
    ExecAllMonotone(g, cs[m + 1..]);
    assert k !in g.plan.live && k !in h.plan.live;
    if k in fired {
      assert k in g.cancelled;
    }
    assert AfterBatch(p, now, fired, script).queue == h.plan.queue;
    if f.plan.Queued(k) {
      var i :| 0 <= i < |f.plan.queue| && f.plan.queue[i].Arrive? && f.plan.queue[i].k == k;
      assert h.plan.queue[i] == f.plan.queue[i];
    }
    if h.plan.Queued(k) {
      var i :| 0 <= i < |h.plan.queue| && h.plan.queue[i].Arrive? && h.plan.queue[i].k == k;
      assert i < |f.plan.queue|;
    }
  }

  /** Event `ev` carries out a cancellation of timer `k`. */
  ghost predicate Cancels(p: Plan, ev: Event, fired: seq<int>, k: int) {
    match ev
    case Call(c) => c == Cancel(k)
    case RunFunctor => p.queue != [] && p.queue[0] == Revoke(k)
    case Expire(_, _, script) => Cancel(k) in Issued(fired, script)
  }

  /** The timer was not yet, or is no longer, waiting in the queue when event `ev` cancels it. */
  ghost predicate FindsItsTimer(p: Plan, ev: Event, fired: seq<int>, k: int) {
    match ev
    case Call(_) => 1 <= k <= p.created && !p.Queued(k)
    case RunFunctor => !p.Queued(k)
    case Expire(_, _, script) =>
      exists m :: 0 <= m < |Issued(fired, script)| && Issued(fired, script)[m] == Cancel(k)
        && var f := ExecAll(Start(p, fired), Issued(fired, script)[..m]).plan; 1 <= k <= f.created && !f.Queued(k)
  }

  lemma {:induction false} RunWellFormed(ps: seq<Plan>, evs: seq<Event>, log: seq<seq<int>>, i: nat)
    requires IsRun(ps, evs, log) && WellFormed(ps[0]) && i <= |evs|
    ensures WellFormed(ps[i])
  {
    if i > 0 {
      RunWellFormed(ps, evs, log, i - 1);
      StepWellFormed(ps[i - 1], evs[i - 1], log[i - 1], ps[i]);
    }
  }

  lemma StepCancels(p: Plan, ev: Event, fired: seq<int>, p': Plan, k: int)
    requires WellFormed(p) && Step(p, ev, fired, p') && Cancels(p, ev, fired, k) && FindsItsTimer(p, ev, fired, k)
    ensures !p'.Alive(k) && k <= p'.created
  {
    match ev
    case Call(c) => CancelStops(p, k);
    case RunFunctor => RevokeStops(p, k);
    case Expire(now, _, script) =>
      var m :| 0 <= m < |Issued(fired, script)| && Issued(fired, script)[m] == Cancel(k)
        && var f := ExecAll(Start(p, fired), Issued(fired, script)[..m]).plan; 1 <= k <= f.created && !f.Queued(k);
      hide Exec, ExecAll, Issued, Start, IsBatch, WellFormed, AfterBatch;
      CancelInBatchStops(p, now, fired, script, m, k);
      CreatedGrows(p, now, fired, script, m);
  }

  lemma CreatedGrows(p: Plan, now: int, fired: seq<int>, script: Script, m: nat)
    requires m <= |Issued(fired, script)|
    ensures ExecAll(Start(p, fired), Issued(fired, script)[..m]).plan.created <= AfterBatch(p, now, fired, script).created
  {
    var cs := Issued(fired, script);
    assert cs == cs[..m] + cs[m..];
    ExecAllConcat(Start(p, fired), cs[..m], cs[m..]);
    ExecAllMonotone(ExecAll(Start(p, fired), cs[..m]), cs[m..]);
  }

  /**
    Cancellation over whole runs: once a cancellation of a timer that has been added is carried out,
    the timer runs at most once more, and only as a member of the batch during which that happened.
   */
  lemma CancelledForEver(ps: seq<Plan>, evs: seq<Event>, log: seq<seq<int>>, i: nat, j: nat, k: int)
    requires IsRun(ps, evs, log) && WellFormed(ps[0]) && i <= j < |evs|
    requires Cancels(ps[i], evs[i], log[i], k) && FindsItsTimer(ps[i], evs[i], log[i], k)
    ensures i < j ==> k !in log[j]
    ensures k in log[i] ==> evs[i].Expire? && multiset(log[i])[k] == 1
  {
    RunWellFormed(ps, evs, log, i);
    assert Step(ps[i], evs[i], log[i], ps[i + 1]);
    if i < j {
      StepCancels(ps[i], evs[i], log[i], ps[i + 1], k);
      DeadStaysDead(ps, evs, log, i + 1, j, k);
    }
    if k in log[i] {
      NeverEarlyNeverTwiceInABatch(ps, evs, log, i, k);
    }
  }

  /**
    The limit of cancellation: a loop-thread `cancel` that overtakes the `addTimer` of another thread
    is lost, and the timer runs.
   */
  lemma CancelCanBeOvertaken()
    ensures exists ps, evs, log :: IsRun(ps, evs, log) && ps[0] == EMPTY_PLAN && |evs| == 4
              && evs[0] == Call(PostAdd(5, 0.0)) && evs[1] == Call(Cancel(1)) && log[3] == [1]
  {
    var task := Task(5, 0.0);
    var p1 := Plan(map[], [Arrive(1, task)], 1);
    var p3 := Plan(map[1 := task], [], 1);
    var p4 := AfterBatch(p3, 10, [1], map[]);
    var evs := [Call(PostAdd(5, 0.0)), Call(Cancel(1)), RunFunctor, Expire(10, true, map[])];
    var ps, log := [EMPTY_PLAN, p1, p1, p3, p4], [[], [], [], [1]];
    assert Step(ps[0], evs[0], log[0], ps[1]) && Step(ps[1], evs[1], log[1], ps[2]);
    assert Step(ps[2], evs[2], log[2], ps[3]) && Step(ps[3], evs[3], log[3], ps[4]);
    hide Step;
    assert IsRun(ps, evs, log);
  }

  // ----- When and how often timers run -----

  /** What one event does to a scheduled timer that it does not cancel. */
  lemma StepSpares(p: Plan, ev: Event, fired: seq<int>, p': Plan, k: int)
    requires WellFormed(p) && Step(p, ev, fired, p') && k in p.live && !Cancels(p, ev, fired, k)
    ensures k !in fired ==> k in p'.live && p'.live[k] == p.live[k]
    ensures k in fired && p.live[k].interval > 0.0 ==>
              k in p'.live && p'.live[k] == Task(AddTime(ev.now, p.live[k].interval), p.live[k].interval)
    ensures k in fired && p.live[k].interval <= 0.0 ==> !p'.Alive(k)
  {
    match ev
    case Call(c) =>
    case RunFunctor =>
    case Expire(now, _, script) =>
      ExecAllSpares(Start(p, fired), Issued(fired, script), k);
      ExecAllMonotone(Start(p, fired), Issued(fired, script));
  }

  /** A scheduled timer that an event leaves scheduled keeps its interval, and its due time unless it ran. */
  lemma StepKeepsTask(p: Plan, ev: Event, fired: seq<int>, p': Plan, k: int)
    requires WellFormed(p) && Step(p, ev, fired, p') && k in p.live
    ensures k !in p'.live ==> !p'.Alive(k)
    ensures k in p'.live && k !in fired ==> p'.live[k] == p.live[k]
    ensures k in p'.live && k in fired ==>
              p.live[k].interval > 0.0 && p'.live[k] == Task(AddTime(ev.now, p.live[k].interval), p.live[k].interval)
  {
    match ev
    case Call(c) =>
    case RunFunctor =>
      if p.queue != [] {
        assert forall i :: 0 <= i < |p'.queue| ==> p'.queue[i] == p.queue[i + 1];
      }
    case Expire(now, _, script) =>
      ExecAllMonotone(Start(p, fired), Issued(fired, script));
  }

  /** No timer runs before its due time, and none runs twice in one batch, however late it is. */
  lemma NeverEarlyNeverTwiceInABatch(ps: seq<Plan>, evs: seq<Event>, log: seq<seq<int>>, i: nat, k: int)
    requires IsRun(ps, evs, log) && i < |evs| && k in log[i]
    ensures evs[i].Expire? && k in ps[i].live && ps[i].live[k].due <= evs[i].now
    ensures multiset(log[i])[k] == 1
  {
    assert Step(ps[i], evs[i], log[i], ps[i + 1]);
    OnceIfDistinct(log[i], k);
  }

  /** Within a batch, callbacks run by due time. */
  lemma RunsInDueOrder(ps: seq<Plan>, evs: seq<Event>, log: seq<seq<int>>, i: nat, m: nat, n: nat)
    requires IsRun(ps, evs, log) && i < |evs| && m < n < |log[i]|
    ensures log[i][m] in ps[i].live && log[i][n] in ps[i].live
    ensures ps[i].live[log[i][m]].due <= ps[i].live[log[i][n]].due
  {
    assert Step(ps[i], evs[i], log[i], ps[i + 1]);
  }

  lemma OnceIfDistinct(s: seq<int>, k: int)
    requires Distinct(s) && k in s
    ensures multiset(s)[k] == 1
  {
    var m :| 0 <= m < |s| && s[m] == k;
    var a, b := s[..m], s[m + 1..];
    assert k !in a && k !in b;
    hide Distinct;
    assert s == a + [k] + b;
  }

  /** Between two events at which timer `k` is scheduled it was scheduled all along, at one interval. */
  lemma {:induction false} IntervalKept(ps: seq<Plan>, evs: seq<Event>, log: seq<seq<int>>, i: nat, j: nat, k: int)
    requires IsRun(ps, evs, log) && WellFormed(ps[0]) && i <= j <= |evs| && k in ps[i].live && k in ps[j].live
    ensures ps[j].live[k].interval == ps[i].live[k].interval
    ensures (forall m :: i <= m < j ==> k !in log[m]) ==> ps[j].live[k] == ps[i].live[k]
    decreases j - i
  {
    if i < j {
      RunWellFormed(ps, evs, log, i);
      StepKeepsTask(ps[i], evs[i], log[i], ps[i + 1], k);
      if k !in ps[i + 1].live {
        StepWellFormed(ps[i], evs[i], log[i], ps[i + 1]);
        DeadStaysDead(ps, evs, log, i + 1, j, k);
      }
      IntervalKept(ps, evs, log, i + 1, j, k);
    }
  }

  /**
    Firing counts and spacing: a timer that runs in two batches of a run repeats, so a one-shot timer
    runs at most once ever; and between two consecutive runs of it lies at least its interval.
   */
  lemma RunsAgainOnlyAfterInterval(ps: seq<Plan>, evs: seq<Event>, log: seq<seq<int>>, i: nat, j: nat, k: int)
    requires IsRun(ps, evs, log) && WellFormed(ps[0]) && i < j < |evs| && k in log[i] && k in log[j]
    ensures k in ps[i].live && ps[i].live[k].interval > 0.0 && evs[i].Expire? && evs[j].Expire?
    ensures (forall m :: i < m < j ==> k !in log[m]) ==> evs[j].now >= AddTime(evs[i].now, ps[i].live[k].interval)
  {
    NeverEarlyNeverTwiceInABatch(ps, evs, log, i, k);
    NeverEarlyNeverTwiceInABatch(ps, evs, log, j, k);
    RunWellFormed(ps, evs, log, i);
    StepKeepsTask(ps[i], evs[i], log[i], ps[i + 1], k);
    if k !in ps[i + 1].live {
      StepWellFormed(ps[i], evs[i], log[i], ps[i + 1]);
      DeadStaysDead(ps, evs, log, i + 1, j, k);
    }
    IntervalKept(ps, evs, log, i + 1, j, k);
  }

  /** A timer that nothing cancels runs by the first batch whose time reaches its due time. */
  lemma {:induction false} RunsWhenDue(ps: seq<Plan>, evs: seq<Event>, log: seq<seq<int>>, i: nat, j: nat, k: int)
    requires IsRun(ps, evs, log) && WellFormed(ps[0]) && i <= j < |evs| && k in ps[i].live
    requires forall m :: i <= m < j ==> !Cancels(ps[m], evs[m], log[m], k)
    requires evs[j].Expire? && ps[i].live[k].due <= evs[j].now
    ensures exists m :: i <= m <= j && k in log[m]
    decreases j - i
  {
    RunWellFormed(ps, evs, log, i);
    assert Step(ps[i], evs[i], log[i], ps[i + 1]);
    if k !in log[i] && i < j {
      StepSpares(ps[i], evs[i], log[i], ps[i + 1], k);
      RunsWhenDue(ps, evs, log, i + 1, j, k);
    }
  }

  // ----- Progress of batches -----

  /**
    A second batch at the same time: it runs exactly the repeating timers of the first one whose
    interval is worth no tick, and the due timers that the callbacks added.
   */
  lemma SecondBatch(p: Plan, now: int, fired: seq<int>, script: Script, again: seq<int>, k: int)
    requires WellFormed(p) && IsBatch(p, now, fired)
    requires IsBatch(AfterBatch(p, now, fired, script), now, again)
    ensures var f := ExecAll(Start(p, fired), Issued(fired, script));
            k in again <==>
              || (k in fired && p.live[k].interval > 0.0 && k !in f.cancelled && Ticks(p.live[k].interval) == 0)
              || (p.created < k && k in f.plan.live && f.plan.live[k].due <= now)
  {
    ExecAllMonotone(Start(p, fired), Issued(fired, script));
  }

  lemma {:induction false} NoAddNoNewTimer(f: Frame, cs: seq<Command>, k: int)
    requires forall c :: c in cs ==> !c.Add?
    ensures k in ExecAll(f, cs).plan.live ==> k in f.plan.live
  {
    if cs != [] {
      var n := |cs| - 1;
      assert cs[n] in cs && forall c :: c in cs[..n] ==> c in cs;
      NoAddNoNewTimer(f, cs[..n], k);
    }
  }

  lemma EmptyBatch(p: Plan, now: int, script: Script)
    ensures AfterBatch(p, now, [], script) == p
  {}

  /**
    Batches make progress: when every repeating timer that ran has an interval of at least one tick
    and no callback added a timer, a second batch at the same time runs nothing and changes nothing.
   */
  lemma SecondBatchIsIdle(p: Plan, now: int, fired: seq<int>, script: Script, again: seq<int>, script': Script)
    requires WellFormed(p) && IsBatch(p, now, fired)
    requires forall k :: k in fired && p.live[k].interval > 0.0 ==> 1 <= Ticks(p.live[k].interval)
    requires forall c :: c in Issued(fired, script) ==> !c.Add?
    requires IsBatch(AfterBatch(p, now, fired, script), now, again)
    ensures again == []
    ensures AfterBatch(AfterBatch(p, now, fired, script), now, again, script') == AfterBatch(p, now, fired, script)
  {
    if again != [] {
      hide AfterBatch;
      SecondBatch(p, now, fired, script, again, again[0]);
      NoAddNoNewTimer(Start(p, fired), Issued(fired, script), again[0]);
    }
    EmptyBatch(AfterBatch(p, now, fired, script), now, script');
  }

  /** Both conditions are needed: an interval below one microsecond repeats at the same time again. */
  lemma TinyIntervalNeverRests()
    ensures var p := Plan(map[1 := Task(10, 0.0000001)], [], 1);
            && IsBatch(p, 10, [1])
            && AfterBatch(p, 10, [1], map[]) == p
  {}
}
