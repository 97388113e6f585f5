/**
  What the timer queue promises its callers, with no addresses, indices or alarms: a plan that maps
  the sequence number of every scheduled timer to its due time and interval.
 */
module TimerPlan {
  import opened Timers

  datatype Task = Task(due: int, interval: real) {
    predicate Repeats() { interval > 0.0 }
  }

  /**
    What callers do. `Add` and `Cancel` are calls made in the loop thread (also by a running
    callback); `PostAdd` and `PostCancel` are calls made in another thread, which only queue a
    functor. A timer is named by its sequence number.
   */
  datatype Command =
    | Add(when: int, interval: real)
    | Cancel(k: int)
    | PostAdd(when: int, interval: real)
    | PostCancel(k: int)

  /** Functors waiting in the loop. */
  datatype Message = Arrive(k: int, task: Task) | Revoke(k: int)

  datatype Plan = Plan(live: map<int, Task>, queue: seq<Message>, created: nat) {

    /** A caller holds an id only for a timer that exists; otherwise it holds the default id, 0. */
    function Known(k: int): int { if 1 <= k <= created then k else 0 }

    ghost predicate Queued(k: int) {
      exists i :: 0 <= i < |queue| && queue[i].Arrive? && queue[i].k == k
    }

    /** Timer `k` is scheduled, or waits to be. */
    ghost predicate Alive(k: int) { k in live || Queued(k) }
  }

  const EMPTY_PLAN := Plan(map[], [], 0)

  /** A plan together with the cancellations that found no scheduled timer. */
  datatype Frame = Frame(plan: Plan, cancelled: set<int>)

  function Exec(f: Frame, c: Command): Frame {
    var p := f.plan;
    match c
    case Add(when, interval) =>
      f.(plan := p.(live := p.live[p.created + 1 := Task(when, interval)], created := p.created + 1))
    case Cancel(k) =>
      if p.Known(k) in p.live then f.(plan := p.(live := p.live - {p.Known(k)}))
      else f.(cancelled := f.cancelled + {p.Known(k)})
    case PostAdd(when, interval) =>
      f.(plan := p.(queue := p.queue + [Arrive(p.created + 1, Task(when, interval))], created := p.created + 1))
    case PostCancel(k) =>
      f.(plan := p.(queue := p.queue + [Revoke(p.Known(k))]))
  }

  function ExecAll(f: Frame, cs: seq<Command>): Frame {
    if cs == [] then f else Exec(ExecAll(f, cs[..|cs| - 1]), cs[|cs| - 1])
  }

  /** The loop runs the oldest queued functor. */
  function Deliver(p: Plan): Plan {
    if p.queue == [] then p else
      var rest := p.(queue := p.queue[1..]);
      match p.queue[0]
      case Arrive(k, task) => rest.(live := p.live[k := task])
      case Revoke(k) => rest.(live := p.live - {k})
  }

  /** The commands that each callback of a batch issues, by the timer's sequence number. */
  type Script = map<int, seq<Command>>

  function Actions(script: Script, k: int): seq<Command> {
    if k in script then script[k] else []
  }

  /** All commands issued while the callbacks of `fired` run in that order. */
  function Issued(fired: seq<int>, script: Script): seq<Command> {
    if fired == [] then [] else
      Issued(fired[..|fired| - 1], script) + Actions(script, fired[|fired| - 1])
  }

  ghost predicate Distinct(s: seq<int>) {
    forall i, j :: 0 <= i < j < |s| ==> s[i] != s[j]
  }

  /** `fired` lists exactly the timers due at `now`, each once, by non-decreasing due time. */
  ghost predicate IsBatch(p: Plan, now: int, fired: seq<int>) {
    && (forall k :: k in fired <==> k in p.live && p.live[k].due <= now)
    && Distinct(fired)
    && (forall i, j :: 0 <= i < j < |fired| ==>
          fired[i] in p.live && fired[j] in p.live && p.live[fired[i]].due <= p.live[fired[j]].due)
  }

  function Start(p: Plan, fired: seq<int>): Frame {
    Frame(p.(live := p.live - (set k | k in fired)), {})
  }

  function Renewed(was: map<int, Task>, fired: seq<int>, cancelled: set<int>, now: int): map<int, Task> {
    map k | k in fired && k in was && was[k].Repeats() && k !in cancelled
      :: Task(AddTime(now, was[k].interval), was[k].interval)
  }

  /**
    A batch takes the due timers out of the plan, runs their callbacks, then puts back the repeating
    ones that no callback cancelled, due again one interval after `now`.
   */
  function AfterBatch(p: Plan, now: int, fired: seq<int>, script: Script): Plan {
    var f := ExecAll(Start(p, fired), Issued(fired, script));
    f.plan.(live := f.plan.live + Renewed(p.live, fired, f.cancelled, now))
  }

  /**
    One turn of the loop: a call, a queued functor, or the timerfd becoming readable. `consumed`
    says whether the read took the alarm (it fails when the alarm was set again in the meantime).
   */
  datatype Event =
    | Call(command: Command)
    | RunFunctor
    | Expire(now: int, consumed: bool, script: Script)

  ghost predicate Step(p: Plan, ev: Event, fired: seq<int>, p': Plan) {
    match ev
    case Call(c) => fired == [] && p' == Exec(Frame(p, {}), c).plan
    case RunFunctor => fired == [] && p' == Deliver(p)
    case Expire(now, _, script) => IsBatch(p, now, fired) && p' == AfterBatch(p, now, fired, script)
  }

  /** A run: the plans passed through and, for each event, the timers whose callbacks it ran. */
  ghost predicate IsRun(ps: seq<Plan>, evs: seq<Event>, log: seq<seq<int>>) {
    && |ps| == |evs| + 1 == |log| + 1
    && forall i :: 0 <= i < |evs| ==> Step(ps[i], evs[i], log[i], ps[i + 1])
  }

  /** Sequence numbers are given out once: no two timers of a plan share one, and none is revoked before. */
  ghost predicate WellFormed(p: Plan) {
    && (forall k :: k in p.live ==> 1 <= k <= p.created)
    && (forall i :: 0 <= i < |p.queue| && p.queue[i].Arrive? ==> 1 <= p.queue[i].k <= p.created && p.queue[i].k !in p.live)
    && (forall i, j :: 0 <= i < j < |p.queue| && p.queue[i].Arrive? && p.queue[j].Arrive? ==> p.queue[i].k != p.queue[j].k)
    && (forall i :: 0 <= i < |p.queue| && p.queue[i].Revoke? ==> 0 <= p.queue[i].k <= p.created)
  }

  lemma {:induction false} ExecAllConcat(f: Frame, a: seq<Command>, b: seq<Command>)
    ensures ExecAll(f, a + b) == ExecAll(ExecAll(f, a), b)
    decreases |b|
  {
    if b == [] {
      assert a + b == a;
    } else {
      var n := |b| - 1;
      assert (a + b)[..|a| + n] == a + b[..n];
      ExecAllConcat(f, a, b[..n]);
    }
  }

  /** The plan's bookkeeping only looks at `cancelled` when the batch ends. */
  lemma ExecIgnoresCancelled(p: Plan, a: set<int>, b: set<int>, c: Command)
    ensures Exec(Frame(p, a), c).plan == Exec(Frame(p, b), c).plan
  {}
}
