/**
  What the events of the connector and the client bring about: which of them make an attempt and how it
  ends, which set a retry timer and for when, and which close callbacks reconnect.
 */
module ConnectionOutcomes {
  import opened Common
  import opened Connection
  import opened ConnectionInvariant

  // ----- Attempts -----

  /** The `errno` values after which the attempt waits for the handshake, and those after which it is retried. */
  const BEGINS := {SUCCESS, EINPROGRESS, EINTR, EISCONN}
  const REFUSED := {EAGAIN, EADDRINUSE, EADDRNOTAVAIL, ECONNREFUSED, ENETUNREACH}

  /** The event makes a `::connect`: a start, a start that was queued, a retry timer, or a reconnection. */
  predicate Attempts(w: World, ev: Event) {
    && Enabled(w, ev)
    && match ev
       case ClientConnect(inLoop, _) => inLoop
       case FunctorRuns(_) => w.net.functors[0].StartInLoop? && w.net.connect
       case TimerFires(_, _) => w.net.connect
       case Closed(_, _) => w.retry && w.connect
       case _ => false
  }

  /** The result of the `::connect` that the event may make. */
  function ErrnoOf(ev: Event): Errno {
    match ev
    case ClientConnect(_, e) => e
    case FunctorRuns(e) => e
    case TimerFires(_, e) => e
    case Closed(_, e) => e
    case _ => SUCCESS
  }

  /** The retry timers that the event leaves: all but the one that fires. */
  function Pending(w: World, ev: Event): seq<int> {
    if ev.TimerFires? && Enabled(w, ev) then w.net.retryTimers[..ev.i] + w.net.retryTimers[ev.i + 1..] else w.net.retryTimers
  }

  /** How an attempt on a new socket ends, by its `errno`. */
  ghost predicate Ends(n: Net, r: Net, pending: seq<int>, e: Errno) {
    var s := n.sockets;
    && r.sockets == s + 1 && r.handed == n.handed && r.unwatched == n.unwatched
    && (e in BEGINS ==>
          r.state.Connecting? && r.channel == Some(s) && r.closed == n.closed && r.retryTimers == pending)
    && (e in REFUSED ==>
          r.state.Disconnected? && r.channel == n.channel && r.closed == n.closed + [s] && |r.retryTimers| == |pending| + 1)
    && (e !in BEGINS && e !in REFUSED ==>
          r.channel == n.channel && r.closed == n.closed + [s] && r.retryTimers == pending)
  }

  lemma StartEnds(n: Net, e: Errno)
    requires n.connect
    ensures Ends(n, RunStartInLoop(n, e), n.retryTimers, e)
  {}

  lemma NoSocketFromChannel(w: World, ev: Event)
    requires Enabled(w, ev) && (ev.Writable? || ev.Errored? || ev.ClientStop?)
    ensures Step(w, ev).net.sockets == w.net.sockets
  {}

  /**
    In every state: exactly these events create a socket, one each. It is then watched, or closed with
    one new retry timer, or only closed, as its `errno` says.
   */
  lemma AttemptOutcome(w: World, ev: Event)
    ensures Step(w, ev).net.sockets == w.net.sockets + Count(Attempts(w, ev))
    ensures Attempts(w, ev) ==> Ends(w.net, Step(w, ev).net, Pending(w, ev), ErrnoOf(ev))
  {
    hide RunStartInLoop, Retry, Classify;
    var n := w.net;
    match ev {
      case ClientConnect(inLoop, e) =>
        StartEnds(n.(connect := true), e);
      case FunctorRuns(e) =>
        if Enabled(w, ev) && n.functors[0].StartInLoop? && n.connect {
          StartEnds(n.(functors := n.functors[1..]), e);
        } else if Enabled(w, ev) {
          NoSocketFromFunctor(w, e);
        }
      case TimerFires(i, e) =>
        if Enabled(w, ev) {
          TimerStarts(w, i, e);
        }
      case Closed(conn, e) =>
        StartEnds(QueueInLoop(n, ConnectDestroyed(conn)).(state := Disconnected, connect := true), e);
      case _ =>
        if Enabled(w, ev) && (ev.Writable? || ev.Errored? || ev.ClientStop?) {
          NoSocketFromChannel(w, ev);
          hide Step;
        }
    }
  }

  lemma NoSocketFromFunctor(w: World, e: Errno)
    requires Enabled(w, FunctorRuns(e)) && !Attempts(w, FunctorRuns(e))
    ensures RunFunctor(w, e).net.sockets == w.net.sockets
  {}

  lemma TimerStarts(w: World, i: nat, e: Errno)
    requires i < |w.net.retryTimers|
    ensures FireTimer(w, i, e).net.sockets == w.net.sockets + Count(w.net.connect)
    ensures w.net.connect ==>
              Ends(w.net, FireTimer(w, i, e).net, w.net.retryTimers[..i] + w.net.retryTimers[i + 1..], e)
  {
    hide Connect;
    var n := w.net.(retryTimers := w.net.retryTimers[..i] + w.net.retryTimers[i + 1..]);
    if n.connect {
      StartEnds(n, e);
    }
  }

  // ----- Retry timers -----

  /** The event ends an attempt without success while a connection is wanted. */
  predicate Fails(w: World, ev: Event) {
    || (Attempts(w, ev) && ErrnoOf(ev) in REFUSED)
    || (&& Enabled(w, ev) && w.net.state.Connecting? && w.net.connect
        && match ev
           case FunctorRuns(_) => w.net.functors[0].StopInLoop?
           case Writable(error, self) => error || self
           case Errored => true
           case _ => false)
  }

  /** The failure `fails`, if there is one, sets one timer for the current delay and doubles the delay up to the cap. */
  ghost predicate Delayed(n: Net, r: Net, pending: seq<int>, fails: bool) {
    && r.retryTimers == pending + (if fails then [n.clock + n.retryDelayMs] else [])
    && r.retryDelayMs == (if fails then Min(2 * n.retryDelayMs, 30000) else n.retryDelayMs)
    && r.retries == n.retries + Count(fails)
  }

  lemma StartDelayed(n: Net, e: Errno)
    ensures Delayed(n, RunStartInLoop(n, e), n.retryTimers, n.connect && e in REFUSED)
  {}

  lemma AbandonDelayed(n: Net)
    requires n.state.Connecting? && n.channel.Some?
    ensures Delayed(n, Abandoned(n), n.retryTimers, n.connect)
  {}

  lemma HandshakeDelayed(n: Net)
    requires n.state.Connecting? && n.channel.Some?
    ensures Delayed(n, HandleWrite(n, false, false), n.retryTimers, false)
  {}

  lemma FunctorDelayed(w: World, e: Errno)
    requires Enabled(w, FunctorRuns(e))
    ensures Delayed(w.net, RunFunctor(w, e).net, w.net.retryTimers, Fails(w, FunctorRuns(e)))
  {
    hide RunStartInLoop, Retry;
    var n := w.net.(functors := w.net.functors[1..]);
    match w.net.functors[0] {
      case StartInLoop =>
        StartDelayed(n, e);
      case StopInLoop =>
        if n.state.Connecting? {
          AbandonDelayed(n);
          assert RunStopInLoop(n) == Abandoned(n) by {
            StopAbandons(n);
          }
        }
      case _ =>
    }
  }

  lemma StopAbandons(n: Net)
    requires n.state.Connecting? && n.channel.Some?
    ensures RunStopInLoop(n) == Abandoned(n)
  {}

  lemma StopDelayed(n: Net, inLoop: bool)
    requires inLoop ==> n.ChannelReady()
    ensures Delayed(n, Stop(n, inLoop), n.retryTimers, false)
  {}

  lemma ChannelDelayed(w: World, ev: Event)
    requires Enabled(w, ev) && (ev.Writable? || ev.Errored?)
    ensures Delayed(w.net, Step(w, ev).net, w.net.retryTimers, Fails(w, ev))
  {
    hide Retry;
    if w.net.state.Connecting? {
      AbandonDelayed(w.net);
      HandshakeDelayed(w.net);
      hide Delayed;
    }
  }

  lemma TimerDelayed(w: World, i: nat, e: Errno)
    requires Enabled(w, TimerFires(i, e))
    ensures Delayed(w.net, FireTimer(w, i, e).net, Pending(w, TimerFires(i, e)), w.net.connect && e in REFUSED)
  {
    hide RunStartInLoop;
    StartDelayed(w.net.(retryTimers := w.net.retryTimers[..i] + w.net.retryTimers[i + 1..]), e);
  }

  /** In every state: exactly these failures set a retry timer, one each; nothing else touches timers or delay. */
  lemma StepDelayed(w: World, ev: Event)
    ensures Delayed(w.net, Step(w, ev).net, Pending(w, ev), Fails(w, ev))
  {
    hide RunStartInLoop, Retry, RunFunctor, FireTimer;
    var n := w.net;
    if Enabled(w, ev) {
      match ev {
        case ClientConnect(inLoop, e) =>
          StartDelayed(n.(connect := true), e);
        case ClientStop(inLoop) =>
          StopDelayed(n, inLoop);
          hide Stop;
        case FunctorRuns(e) =>
          FunctorDelayed(w, e);
        case TimerFires(i, e) =>
          TimerDelayed(w, i, e);
        case Closed(conn, e) =>
          StartDelayed(QueueInLoop(n, ConnectDestroyed(conn)).(state := Disconnected, connect := true), e);
        case _ =>
          if ev.Writable? || ev.Errored? {
            ChannelDelayed(w, ev);
            hide Step;
          }
      }
    }
  }

  /** How many retry timers a run sets, counted by the timers themselves. */
  ghost function TimersSet(w: World, evs: seq<Event>): int
    decreases |evs|
  {
    if evs == [] then 0 else
      |Step(w, evs[0]).net.retryTimers| - |Pending(w, evs[0])| + TimersSet(Step(w, evs[0]), evs[1..])
  }

  lemma {:induction false} DelayAfterTimers(w: World, evs: seq<Event>)
    requires w.net.retryDelayMs == Delay(w.net.retries)
    ensures var r := Run(w, evs).net;
            r.retries == w.net.retries + TimersSet(w, evs) && r.retryDelayMs == Delay(r.retries) && 0 <= TimersSet(w, evs)
    decreases |evs|
  {
    if evs != [] {
      hide Step, Fails, Pending;
      StepDelayed(w, evs[0]);
      DelayAfterTimers(Step(w, evs[0]), evs[1..]);
    }
  }

  /**
    Exponential backoff, in every run: an event that sets a retry timer is one of the failures, it sets
    one, and that one is due min(500 * 2^m, 30000) ms later, where m timers were set before it.
   */
  lemma BackoffInAnyRun(evs: seq<Event>, ev: Event)
    ensures var w, m := Run(INITIAL, evs), TimersSet(INITIAL, evs);
            && 0 <= m && w.net.retryDelayMs == Min(500 * Pow2(m), 30000) && w.net.retryDelayMs * 2 <= 60000
            && Step(w, ev).net.retryTimers
               == Pending(w, ev) + if Fails(w, ev) then [w.net.clock + Min(500 * Pow2(m), 30000)] else []
  {
    hide Step, Fails, Pending;
    DelayAfterTimers(INITIAL, evs);
    StepDelayed(Run(INITIAL, evs), ev);
    DelayIsCappedPower(TimersSet(INITIAL, evs));
  }

  ghost predicate TimersNear(n: Net) {
    && 0 <= n.retryDelayMs <= 30000
    && forall i :: 0 <= i < |n.retryTimers| ==> n.retryTimers[i] <= n.clock + 30000
  }

  lemma ClockStep(w: World, ev: Event)
    ensures Step(w, ev).net.clock == w.net.clock + (if ev.TimePasses? then ev.ticks else 0)
  {
    if ev.FunctorRuns? && Enabled(w, ev) {
      FunctorClock(w, ev.e);
      hide RunFunctor;
    }
  }

  lemma FunctorClock(w: World, e: Errno)
    requires Enabled(w, FunctorRuns(e))
    ensures RunFunctor(w, e).net.clock == w.net.clock
  {
    hide RunStartInLoop;
    StartClock(w.net.(functors := w.net.functors[1..]), e);
  }

  lemma StartClock(n: Net, e: Errno)
    ensures RunStartInLoop(n, e).clock == n.clock
  {}

  lemma {:induction false} TimersStayNear(w: World, evs: seq<Event>)
    requires TimersNear(w.net)
    ensures TimersNear(Run(w, evs).net)
    decreases |evs|
  {
    if evs != [] {
      NearStep(w, evs[0]);
      TimersStayNear(Step(w, evs[0]), evs[1..]);
    }
  }

  lemma NearStep(w: World, ev: Event)
    requires TimersNear(w.net)
    ensures TimersNear(Step(w, ev).net)
  {
    StepDelayed(w, ev);
    ClockStep(w, ev);
    hide Step, Fails;
  }

  /** In every run a pending retry is never more than 30 seconds away. */
  lemma RetriesAreNear(evs: seq<Event>, i: nat)
    requires i < |Run(INITIAL, evs).net.retryTimers|
    ensures Run(INITIAL, evs).net.retryTimers[i] <= Run(INITIAL, evs).net.clock + 30000
  {
    TimersStayNear(INITIAL, evs);
  }

  /** So after 30 seconds it can fire, and then it makes an attempt if and only if a connection is still wanted. */
  lemma RetriesComeDue(evs: seq<Event>, i: nat, e: Errno)
    requires i < |Run(INITIAL, evs).net.retryTimers|
    ensures var v := Step(Run(INITIAL, evs), TimePasses(30000));
            Enabled(v, TimerFires(i, e)) && (Attempts(v, TimerFires(i, e)) <==> Run(INITIAL, evs).net.connect)
  {
    RetriesAreNear(evs, i);
  }

  /** When the first attempt of a run is made. */
  ghost function FirstAttempt(w: World, evs: seq<Event>): Option<int>
    decreases |evs|
  {
    if evs == [] then None
    else if Attempts(w, evs[0]) then Some(w.net.clock)
    else FirstAttempt(Step(w, evs[0]), evs[1..])
  }

  ghost predicate Begun(n: Net, r: Net, attempts: bool) {
    r.firstAttempt == if attempts && n.firstAttempt.None? then Some(n.clock) else n.firstAttempt
  }

  lemma StartBegins(n: Net, e: Errno)
    ensures Begun(n, RunStartInLoop(n, e), n.connect)
  {}

  lemma FunctorBegins(w: World, e: Errno)
    requires Enabled(w, FunctorRuns(e))
    ensures Begun(w.net, RunFunctor(w, e).net, Attempts(w, FunctorRuns(e)))
  {
    StartBegins(w.net.(functors := w.net.functors[1..]), e);
    hide RunStartInLoop;
  }

  lemma ChannelBegins(w: World, ev: Event)
    requires Enabled(w, ev) && (ev.Writable? || ev.Errored? || ev.ClientStop?)
    ensures Begun(w.net, Step(w, ev).net, false)
  {}

  lemma StepBegins(w: World, ev: Event)
    ensures Begun(w.net, Step(w, ev).net, Attempts(w, ev))
  {
    hide RunStartInLoop;
    var n := w.net;
    if Enabled(w, ev) {
      match ev {
        case ClientConnect(_, e) =>
          StartBegins(n.(connect := true), e);
        case FunctorRuns(e) =>
          FunctorBegins(w, e);
          hide RunFunctor;
        case TimerFires(i, e) =>
          StartBegins(n.(retryTimers := n.retryTimers[..i] + n.retryTimers[i + 1..]), e);
        case Closed(conn, e) =>
          StartBegins(QueueInLoop(n, ConnectDestroyed(conn)).(state := Disconnected, connect := true), e);
        case _ =>
          if ev.Writable? || ev.Errored? || ev.ClientStop? {
            ChannelBegins(w, ev);
            hide Step;
          }
      }
    }
  }

  lemma {:induction false} RunBegins(w: World, evs: seq<Event>)
    ensures Run(w, evs).net.firstAttempt == if w.net.firstAttempt.Some? then w.net.firstAttempt else FirstAttempt(w, evs)
    decreases |evs|
  {
    if evs != [] {
      hide Step, Attempts;
      StepBegins(w, evs[0]);
      RunBegins(Step(w, evs[0]), evs[1..]);
    }
  }

  /** When the `n`-th retry timer fires, all delays up to it have passed since the first attempt. */
  lemma RetriesKeepTheirDistance(evs: seq<Event>, i: nat, e: Errno)
    requires DisciplinedRun(INITIAL, evs) && Enabled(Run(INITIAL, evs), TimerFires(i, e))
    ensures var now, first, m := Run(INITIAL, evs).net.clock, FirstAttempt(INITIAL, evs), TimersSet(INITIAL, evs);
            && 0 <= m && first.Some? && now >= first.value + TotalDelay(m)
            && (6 <= m ==> now - first.value >= 31500 + 30000 * (m - 6))
  {
    RunBegins(INITIAL, evs);
    assert INITIAL.net.firstAttempt.None?;
    hide FirstAttempt;
    hide BackedOff, Run, DisciplinedRun, TimersSet, TotalDelay, Delay;
    CountedRun(evs);
    DueTimer(Run(INITIAL, evs).net, i);
    if 6 <= TimersSet(INITIAL, evs) {
      TotalDelayFromSix(TimersSet(INITIAL, evs));
    }
  }

  lemma CountedRun(evs: seq<Event>)
    requires DisciplinedRun(INITIAL, evs)
    ensures BackedOff(Run(INITIAL, evs).net) && Run(INITIAL, evs).net.retries == TimersSet(INITIAL, evs)
  {
    hide BackedOff, Run, DisciplinedRun, TimersSet, SocketsConserved, ChannelsEnd, ChannelSafe;
    InitialInv();
    RunKeeps(INITIAL, evs);
    DelayAfterTimers(INITIAL, evs);
  }

  lemma DueTimer(n: Net, i: nat)
    requires BackedOff(n) && i < |n.retryTimers| && n.retryTimers[i] <= n.clock
    ensures n.firstAttempt.Some? && n.clock >= n.firstAttempt.value + TotalDelay(n.retries)
  {}

  // ----- Reconnection -----

  lemma FlagsStep(w: World, ev: Event)
    ensures !ev.ClientStop? && !ev.ClientDisconnect? && w.connect ==> Step(w, ev).connect
    ensures ev.ClientConnect? ==> Step(w, ev).connect
    ensures !ev.ClientConnect? && !w.connect ==> !Step(w, ev).connect
    ensures w.retry || ev.EnableRetry? ==> Step(w, ev).retry
  {}

  lemma {:induction false} StaysDisconnected(w: World, evs: seq<Event>)
    requires !w.connect && forall i :: 0 <= i < |evs| ==> !evs[i].ClientConnect?
    ensures !Run(w, evs).connect
    decreases |evs|
  {
    if evs != [] {
      FlagsStep(w, evs[0]);
      StaysDisconnected(Step(w, evs[0]), evs[1..]);
    }
  }

  lemma {:induction false} StaysWanted(w: World, evs: seq<Event>)
    requires w.connect && forall i :: 0 <= i < |evs| ==> !evs[i].ClientStop? && !evs[i].ClientDisconnect?
    ensures Run(w, evs).connect && (w.retry ==> Run(w, evs).retry)
    decreases |evs|
  {
    if evs != [] {
      FlagsStep(w, evs[0]);
      StaysWanted(Step(w, evs[0]), evs[1..]);
    }
  }

  /**
    `disconnect`: until the next `connect`, the close of a connection starts nothing. All it does to the
    connector is to queue that connection's `connectDestroyed`.
   */
  lemma DisconnectPreventsReconnect(w: World, evs: seq<Event>, conn: Conn, e: Errno)
    requires forall i :: 0 <= i < |evs| ==> !evs[i].ClientConnect?
    requires Enabled(Run(Step(w, ClientDisconnect), evs), Closed(conn, e))
    ensures var v := Run(Step(w, ClientDisconnect), evs);
            Step(v, Closed(conn, e)).net == v.net.(functors := v.net.functors + [ConnectDestroyed(conn)])
  {
    StaysDisconnected(Step(w, ClientDisconnect), evs);
  }

  /** Conversely: after `enableRetry` and `connect`, with no `stop` or `disconnect` since, a close attempts again. */
  lemma CloseReconnects(w: World, inLoop: bool, first: Errno, evs: seq<Event>, conn: Conn, e: Errno)
    requires forall i :: 0 <= i < |evs| ==> !evs[i].ClientStop? && !evs[i].ClientDisconnect?
    requires Enabled(Run(Step(Step(w, EnableRetry), ClientConnect(inLoop, first)), evs), Closed(conn, e))
    ensures var v := Run(Step(Step(w, EnableRetry), ClientConnect(inLoop, first)), evs);
            Ends(v.net, Step(v, Closed(conn, e)).net, v.net.retryTimers, e)
  {
    var v := Step(Step(w, EnableRetry), ClientConnect(inLoop, first));
    hide Step, Run, Ends, Enabled;
    FlagsStep(w, EnableRetry);
    FlagsStep(Step(w, EnableRetry), ClientConnect(inLoop, first));
    StaysWanted(v, evs);
    AttemptOutcome(Run(v, evs), Closed(conn, e));
  }

  /** A handshake that succeeds establishes a connection on that socket, unless no connection is wanted any more. */
  lemma HandshakeEstablishes(w: World)
    requires Inv(w) && w.net.state.Connecting?
    ensures var s, r := w.net.channel.value, Step(w, Writable(false, false));
            && r.net.state.Connected?
            && (w.net.connect ==> r.connection == Some(Conn(s, |w.established| + 1)) && r.net.closed == w.net.closed)
            && (!w.net.connect ==> r.connection.None? && r.net.closed == w.net.closed + [s])
  {
    hide NetInv;
    InvGivesChannel(w);
  }

  /** The life of a client that retries: connected, closed, and connecting again. */
  lemma ReconnectionRun()
    ensures var evs := [EnableRetry, ClientConnect(true, EINPROGRESS), Writable(false, false), FunctorRuns(SUCCESS),
                        Closed(Conn(0, 1), EINPROGRESS)];
            var w := Run(INITIAL, evs);
            && w.established == [Conn(0, 1)] == w.removed
            && w.net.sockets == 2 && w.net.state.Connecting? && w.net.channel == Some(1)
  {}

  // ----- A wanted connection is always under way -----

  /** While a connection is wanted, exactly one thing is under way: a start, an attempt or the connection. */
  ghost predicate UnderWay(w: World) {
    w.net.connect ==> Starts(w.net) + Count(w.net.state.Connecting?) + Count(w.connection.Some?) == 1
  }

  /** The two ways in which the code lets go of a wanted connection: an errno that gives up, a close without reconnection. */
  predicate LetsGo(w: World, ev: Event) {
    || (Attempts(w, ev) && ErrnoOf(ev) !in BEGINS && ErrnoOf(ev) !in REFUSED)
    || (Enabled(w, ev) && ev.Closed? && !(w.retry && w.connect))
  }

  lemma AttemptIsUnderWay(w: World, ev: Event)
    requires Inv(w) && Disciplined(w, ev) && Attempts(w, ev) && !LetsGo(w, ev)
    ensures UnderWay(Step(w, ev))
  {
    AttemptOutcome(w, ev);
    StepKeeps(w, ev);
    hide Step, NetInv, SlotTracksConnections, Attempts, Disciplined;
  }

  lemma FunctorUnderWay(w: World, e: Errno)
    requires Inv(w) && UnderWay(w) && Enabled(w, FunctorRuns(e)) && !Attempts(w, FunctorRuns(e))
    ensures UnderWay(RunFunctor(w, e))
  {
    hide SlotTracksConnections, SocketsConserved, ChannelsEnd, BackedOff, ResetsBeforeStarts, Targets, Retry, Connect;
    PoppedNet(w.net);
    if w.net.functors[0].StopInLoop? {
      StopInLoopKeeps(w.net.(functors := w.net.functors[1..]));
      StopInLoopFlags(w.net.(functors := w.net.functors[1..]));
      hide RunStopInLoop;
    }
  }

  lemma StopInLoopFlags(n: Net)
    requires n.ChannelReady()
    ensures RunStopInLoop(n).connect == n.connect
  {}

  lemma ChannelUnderWay(w: World, ev: Event)
    requires Inv(w) && UnderWay(w) && Enabled(w, ev) && (ev.Writable? || ev.Errored?)
    ensures UnderWay(Step(w, ev))
  {
    if w.net.state.Connecting? {
      hide NetInv, SlotTracksConnections, Doomed, Starts;
      InvGivesChannel(w);
      if ev.Errored? || ev.error || ev.self {
        AbandonedStarts(w);
        assert Step(w, ev) == w.(net := Abandoned(w.net));
        hide Step;
      } else if w.net.connect {
        HandshakeConnects(w);
        assert Step(w, ev) == OnWritable(w, false, false);
        hide Step, OnWritable;
      } else {
        HandshakeNotWanted(w.net);
        assert Step(w, ev).net == HandleWrite(w.net, false, false);
        hide Step, HandleWrite;
      }
    }
  }

  lemma AbandonedStarts(w: World)
    requires Inv(w) && w.net.state.Connecting? && w.net.channel.Some?
    ensures UnderWay(w.(net := Abandoned(w.net)))
  {
    hide SlotTracksConnections, SocketsConserved, ChannelsEnd, BackedOff, ChannelSafe, Doomed, Retry;
    AbandonKeeps(w.net);
    RetryFlags(RemoveChannel(w.net), w.net.channel.value);
  }

  lemma RetryFlags(n: Net, s: nat)
    ensures Retry(n, s).connect == n.connect
  {}

  lemma HandshakeConnects(w: World)
    requires Inv(w) && w.net.state.Connecting? && w.net.channel.Some? && w.net.connect
    ensures UnderWay(OnWritable(w, false, false))
  {
    hide SlotTracksConnections, SocketsConserved, ChannelsEnd, BackedOff, ChannelSafe, Doomed;
    HandshakeKeepsNet(w.net);
    hide NetInv, Starts;
  }

  lemma HandshakeNotWanted(n: Net)
    requires n.state.Connecting? && n.channel.Some? && !n.connect
    ensures !HandleWrite(n, false, false).connect
  {}

  /** Every disciplined event keeps a wanted connection under way, unless it lets go in one of the two ways. */
  lemma StepUnderWay(w: World, ev: Event)
    requires Inv(w) && Disciplined(w, ev) && UnderWay(w) && !LetsGo(w, ev)
    ensures UnderWay(Step(w, ev))
  {
    if Attempts(w, ev) {
      AttemptIsUnderWay(w, ev);
    } else if Enabled(w, ev) {
      hide NetInv, SlotTracksConnections;
      match ev {
        case ClientConnect(_, _) =>
          AppendFunctor(w.net.functors, StartInLoop);
        case ClientStop(inLoop) =>
          StopNotWanted(w.net, inLoop);
          hide Stop, Starts;
        case FunctorRuns(e) =>
          FunctorUnderWay(w, e);
          hide RunFunctor, UnderWay;
        case _ =>
          if ev.Writable? || ev.Errored? {
            ChannelUnderWay(w, ev);
            hide Step;
          }
      }
    }
  }

  /** And in those two ways it does let go: a connection that is still wanted is not under way any more. */
  lemma LetGoIsIdle(w: World, ev: Event)
    requires Inv(w) && Disciplined(w, ev) && LetsGo(w, ev)
    ensures Idle(Step(w, ev)) && (Step(w, ev).net.connect ==> !UnderWay(Step(w, ev)))
  {
    hide NetInv, SlotTracksConnections, RunStartInLoop, Targets;
    var n := w.net;
    if ev.Closed? {
      InvGivesConnection(w, ev.conn);
      AppendFunctor(n.functors, ConnectDestroyed(ev.conn));
      GivenUpEffect(QueueInLoop(n, ConnectDestroyed(ev.conn)).(state := Disconnected, connect := true), ev.e);
    } else if ev.FunctorRuns? {
      PopFunctor(n.functors);
      GivenUpEffect(n.(functors := n.functors[1..]), ev.e);
    } else if ev.TimerFires? {
      GivenUpEffect(n.(retryTimers := n.retryTimers[..ev.i] + n.retryTimers[ev.i + 1..]), ev.e);
    } else {
      GivenUpEffect(n.(connect := true), ErrnoOf(ev));
    }
  }

  lemma GivenUpEffect(n: Net, e: Errno)
    ensures e !in BEGINS && e !in REFUSED && n.connect ==>
              var r := RunStartInLoop(n, e);
              r.functors == n.functors && r.retryTimers == n.retryTimers && r.state == n.state && r.connect
  {}

  lemma StopNotWanted(n: Net, inLoop: bool)
    requires inLoop ==> n.ChannelReady()
    ensures !Stop(n, inLoop).connect
  {}

  ghost predicate NeverLetsGo(w: World, evs: seq<Event>)
    decreases |evs|
  {
    evs == [] || (!LetsGo(w, evs[0]) && NeverLetsGo(Step(w, evs[0]), evs[1..]))
  }

  /**
    The client never idles: in a disciplined run that does not let go, a wanted connection is at every
    moment being started, attempted, or established, whatever fails and however often.
   */
  lemma {:induction false} WantedIsUnderWay(w: World, evs: seq<Event>)
    requires Inv(w) && UnderWay(w) && DisciplinedRun(w, evs) && NeverLetsGo(w, evs)
    ensures UnderWay(Run(w, evs)) && Inv(Run(w, evs))
    decreases |evs|
  {
    if evs != [] {
      hide Inv, UnderWay, Step, Disciplined, LetsGo;
      StepKeeps(w, evs[0]);
      StepUnderWay(w, evs[0]);
      WantedIsUnderWay(Step(w, evs[0]), evs[1..]);
    }
  }

  /** The same from the start. */
  lemma ClientNeverIdles(evs: seq<Event>)
    requires DisciplinedRun(INITIAL, evs) && NeverLetsGo(INITIAL, evs)
    ensures UnderWay(Run(INITIAL, evs))
  {
    InitialInv();
    assert UnderWay(INITIAL);
    WantedIsUnderWay(INITIAL, evs);
  }

  // ----- The state of an established connection -----

  ghost predicate LiveIsConnected(w: World) {
    w.connection.Some? ==> w.net.state.Connected?
  }

  lemma WritableConnects(w: World, error: bool, self: bool)
    requires w.net.ChannelReady() && LiveIsConnected(w)
    requires w.connection.Some? ==> !w.net.state.Connecting?
    ensures LiveIsConnected(OnWritable(w, error, self))
  {}

  lemma StepLiveIsConnected(w: World, ev: Event)
    requires Inv(w) && Disciplined(w, ev) && LiveIsConnected(w)
    ensures LiveIsConnected(Step(w, ev))
  {
    hide NetInv, SlotTracksConnections, Targets, Classify;
    if ev.Writable? && Enabled(w, ev) {
      WritableConnects(w, ev.error, ev.self);
      hide OnWritable;
    } else if w.connection.Some? && Enabled(w, ev) {
      assert Starts(w.net) == 0 && !w.net.state.Connecting?;
      assert w.net.functors != [] ==> w.net.functors[0] in w.net.functors;
      assert StartInLoop !in w.net.functors;
    }
  }

  /** `state_` is `kConnected` as long as a connection is established. */
  lemma {:induction false} LiveStaysConnected(w: World, evs: seq<Event>)
    requires Inv(w) && LiveIsConnected(w) && DisciplinedRun(w, evs)
    ensures LiveIsConnected(Run(w, evs))
    decreases |evs|
  {
    if evs != [] {
      hide Inv, LiveIsConnected, Step, Disciplined;
      StepKeeps(w, evs[0]);
      StepLiveIsConnected(w, evs[0]);
      LiveStaysConnected(Step(w, evs[0]), evs[1..]);
    }
  }
}
