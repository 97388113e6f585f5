/**
  What the invariant of module ConnectionInvariant means for whole runs, and exactly where it ends:
  the calls and timings for which the connector does not keep its sockets and channels.
 */
module ConnectionRuns {
  import opened Common
  import opened Connection
  import opened ConnectionInvariant

  // ----- Under the discipline -----

  /**
    Whatever the results of `connect`, the events, stops and retries: at every moment each socket
    created so far was closed once, or handed to the client once, or is the one being connected.
   */
  lemma SocketsHaveOnePlace(evs: seq<Event>, s: nat)
    requires DisciplinedRun(INITIAL, evs)
    ensures var n := Run(INITIAL, evs).net;
            multiset(n.closed)[s] + multiset(n.handed)[s] + Count(n.state.Connecting? && n.channel == Some(s))
            == Count(s < n.sockets)
  {
    InitialInv();
    RunKeeps(INITIAL, evs);
  }

  /** At most one of: an attempt still to be started, a running one, a live connection. */
  lemma OneAttemptAtATime(evs: seq<Event>)
    requires DisciplinedRun(INITIAL, evs)
    ensures SingleAttempt(Run(INITIAL, evs)) && ChannelSafe(Run(INITIAL, evs).net)
  {
    InitialInv();
    RunKeeps(INITIAL, evs);
  }

  /**
    The `resetChannel` that runs next destroys the channel it was queued for, after that channel's
    attempt has ended: never the channel of a newer attempt.
   */
  lemma ResetsHitTheirChannel(evs: seq<Event>, e: Errno)
    requires DisciplinedRun(INITIAL, evs)
    requires var fs := Run(INITIAL, evs).net.functors; fs != [] && fs[0].ResetChannel?
    ensures var n, s := Run(INITIAL, evs).net, Run(INITIAL, evs).net.functors[0].target;
            && n.channel == Some(s) && !n.state.Connecting?
            && Run(INITIAL, evs + [FunctorRuns(e)]).net == n.(functors := n.functors[1..], channel := None)
  {
    hide NetInv;
    InitialInv();
    RunKeeps(INITIAL, evs);
    ResetHitsItsChannel(Run(INITIAL, evs).net);
    RunAppend(INITIAL, evs, FunctorRuns(e));
    hide SingleAttempt, SlotTracksConnections, Run, DisciplinedRun;
  }

  lemma {:induction false} RunAppend(w: World, evs: seq<Event>, ev: Event)
    ensures Run(w, evs + [ev]) == Step(Run(w, evs), ev)
    decreases |evs|
  {
    if evs != [] {
      assert (evs + [ev])[1..] == evs[1..] + [ev];
      RunAppend(Step(w, evs[0]), evs[1..], ev);
    }
  }

  /** Each channel is taken out of the poller at most once, and only when its attempt has ended. */
  lemma ChannelsAreRemovedOnce(evs: seq<Event>, s: nat)
    requires DisciplinedRun(INITIAL, evs)
    ensures var n := Run(INITIAL, evs).net;
            multiset(n.unwatched)[s] + Count(n.state.Connecting? && n.channel == Some(s)) <= Count(s < n.sockets)
  {
    SocketsHaveOnePlace(evs, s);
    InitialInv();
    RunKeeps(INITIAL, evs);
  }

  /**
    The slot: `connection_` is set exactly while the last established connection is not removed,
    connection ids are 1, 2, ... in order, and once the queue is drained every removed connection
    went through `connectDestroyed` once, in order.
   */
  lemma SlotIsTheLastConnection(evs: seq<Event>)
    requires DisciplinedRun(INITIAL, evs)
    ensures var w := Run(INITIAL, evs);
            && (w.connection.Some? <==> w.established != w.removed)
            && (w.connection.Some? ==> w.established == w.removed + [w.connection.value])
            && (forall i :: 0 <= i < |w.established| ==> w.established[i].id == i + 1)
            && (w.net.functors == [] ==> w.destroyed == w.removed)
  {
    InitialInv();
    RunKeeps(INITIAL, evs);
    var w := Run(INITIAL, evs);
    assert w.connection.Some? ==> |w.established| == |w.removed| + 1;
  }

  /** Of a write and an error event for one channel only the first has an effect. */
  lemma SecondEventIsIgnored(w: World, error: bool, self: bool)
    requires w.net.ChannelReady()
    ensures Step(Step(w, Writable(error, self)), Errored) == Step(w, Writable(error, self))
    ensures forall error', self' :: Step(Step(w, Errored), Writable(error', self')) == Step(w, Errored)
  {}

  // ----- Stop is final -----

  ghost predicate Stopped(w: World) {
    !w.net.connect && !w.connect
  }

  lemma StopIsStopped(w: World, inLoop: bool)
    requires inLoop ==> w.net.ChannelReady()
    ensures Stopped(Step(w, ClientStop(inLoop)))
  {}

  lemma StoppedStep(w: World, ev: Event)
    requires Stopped(w) && !ev.ClientConnect?
    ensures var r := Step(w, ev);
            Stopped(r) && r.net.sockets == w.net.sockets && r.net.handed == w.net.handed && r.established == w.established
  {}

  /**
    After `stop`, and until the next `connect`, no run creates a socket or a connection: not even one
    that stop overtook while its handshake completed, and no retry timer or queued start changes that.
   */
  lemma {:induction false} StopIsFinal(w: World, evs: seq<Event>)
    requires Stopped(w) && forall i :: 0 <= i < |evs| ==> !evs[i].ClientConnect?
    ensures var r := Run(w, evs);
            Stopped(r) && r.net.sockets == w.net.sockets && r.net.handed == w.net.handed && r.established == w.established
    decreases |evs|
  {
    if evs != [] {
      StoppedStep(w, evs[0]);
      StopIsFinal(Step(w, evs[0]), evs[1..]);
    }
  }

  lemma {:induction false} NoConnectIsDisciplined(w: World, evs: seq<Event>)
    requires Stopped(w) && forall i :: 0 <= i < |evs| ==> !evs[i].ClientConnect?
    ensures DisciplinedRun(w, evs)
    decreases |evs|
  {
    if evs != [] {
      StoppedStep(w, evs[0]);
      NoConnectIsDisciplined(Step(w, evs[0]), evs[1..]);
    }
  }

  /** Once the queue is drained after a stop, the connector holds no open socket. */
  lemma StoppedHoldsNothing(w: World, evs: seq<Event>, s: nat)
    requires Inv(w) && Stopped(w) && forall i :: 0 <= i < |evs| ==> !evs[i].ClientConnect?
    requires Run(w, evs).net.functors == []
    ensures var n := Run(w, evs).net;
            !n.state.Connecting? && n.channel.None? && multiset(n.closed)[s] + multiset(n.handed)[s] == Count(s < n.sockets)
  {
    StopIsFinal(w, evs);
    NoConnectIsDisciplined(w, evs);
    RunKeeps(w, evs);
  }

  // ----- Without the discipline -----

  /**
    Exactly when a `connect` keeps the account of the sockets: unless it makes an attempt in the loop
    thread while another one is running, refused or not; only an error that gives up is harmless then.
   */
  lemma ConnectKeepsSocketsIff(w: World, inLoop: bool, e: Errno)
    requires Inv(w)
    ensures SocketsConserved(Step(w, ClientConnect(inLoop, e)).net)
            <==> !(inLoop && w.net.state.Connecting? && Classify(e) != GiveUp)
  {
    hide SocketsConserved, ChannelsEnd, BackedOff, ResetsBeforeStarts, Targets, SlotTracksConnections, Connect;
    QueueKeeps(w.net, true, StartInLoop);
    AttemptSocketsIff(w.net.(connect := true), e);
  }

  lemma AttemptSocketsIff(n: Net, e: Errno)
    requires SocketsConserved(n) && ChannelsEnd(n) && n.ChannelReady()
    ensures SocketsConserved(Connect(n, e)) <==> !(n.state.Connecting? && Classify(e) != GiveUp)
  {
    hide SocketsConserved, ChannelsEnd, Connect;
    if !n.state.Connecting? {
      AttemptSockets(n, e);
    } else if Classify(e) != GiveUp {
      OverlapSockets(n, e);
    } else {
      RunningIsOpen(n);
      GivenUpSockets(n, e);
    }
  }

  /**
    Exactly when a `connect` keeps channels and resets apart: its attempt must not get under way in
    front of a queued reset, nor end the state of a running attempt without removing its channel.
   */
  lemma ConnectKeepsChannelIff(w: World, inLoop: bool, e: Errno)
    requires Inv(w)
    ensures ChannelSafe(Step(w, ClientConnect(inLoop, e)).net) <==> !(inLoop && Collides(w.net, e))
  {
    hide SocketsConserved, ChannelsEnd, BackedOff, SlotTracksConnections, ChannelSafe, Targets, Connect;
    if inLoop {
      SetFlag(w.net);
      AttemptChannelIff(w.net.(connect := true), e);
    } else {
      PostedIsSafe(w.net, StartInLoop);
    }
  }

  lemma SetFlag(n: Net)
    ensures ChannelSafe(n) ==> forall connect :: ChannelSafe(n.(connect := connect))
  {}

  /** Exactly when a `connect` leaves at most one attempt: a start that is given up, or nothing else ahead. */
  lemma ConnectIsSingleIff(w: World, inLoop: bool, e: Errno)
    requires Inv(w)
    ensures SingleAttempt(Step(w, ClientConnect(inLoop, e)))
            <==> || (inLoop && Classify(e) == GiveUp)
                 || (Starts(w.net) == 0 && w.connection.None? && (!inLoop ==> !w.net.state.Connecting?))
  {
    hide NetInv, SlotTracksConnections, Targets, Doomed, Classify;
    AppendFunctor(w.net.functors, StartInLoop);
  }

  lemma GivenUpSockets(n: Net, e: Errno)
    requires SocketsConserved(n) && ChannelsEnd(n)
    requires n.state.Connecting? && n.channel.Some? ==> n.channel.value < n.sockets
    requires Classify(e) == GiveUp
    ensures SocketsConserved(Connect(n, e)) && ChannelsEnd(Connect(n, e))
  {
    assert multiset(Connect(n, e).closed) == multiset(n.closed) + multiset{n.sockets};
  }

  lemma GivenUpKeeps(w: World, e: Errno)
    requires Inv(w) && Classify(e) == GiveUp
    ensures Inv(Step(w, ClientConnect(true, e)))
  {
    var n := w.net.(connect := true);
    GivenUpNet(w.net, e);
    hide NetInv, SlotTracksConnections, Doomed, Connect;
    SlotUntouched(w, Connect(n, e));
    InvFromParts(w.(connect := true, net := Connect(n, e)));
  }

  lemma GivenUpNet(n: Net, e: Errno)
    requires NetInv(n) && Classify(e) == GiveUp
    ensures var r := Connect(n.(connect := true), e);
            && NetInv(r) && r.functors == n.functors && r.handed == n.handed
            && r.retryTimers == n.retryTimers && r.state == n.state
  {
    hide SocketsConserved, ChannelsEnd, BackedOff, ResetsBeforeStarts, Targets, Classify;
    var m := n.(connect := true);
    SetFlag(n);
    QueueKeeps(n, true, StartInLoop);
    RunningIsOpen(m);
    GivenUpSockets(m, e);
    GivenUpBackoff(m, e);
    AttemptChannelIff(m, e);
    hide ChannelSafe;
  }

  lemma GivenUpBackoff(n: Net, e: Errno)
    requires BackedOff(n) && Classify(e) == GiveUp
    ensures BackedOff(Connect(n, e))
  {}

  /** The socket of the running attempt is neither closed nor handed off. */
  lemma RunningIsOpen(n: Net)
    requires SocketsConserved(n) && n.ChannelReady()
    ensures n.state.Connecting? ==> Running(n, n.channel.value)
  {
    if n.state.Connecting? {
      assert multiset(n.closed)[n.channel.value] + multiset(n.handed)[n.channel.value] == 0;
    }
  }

  lemma OverlapSockets(n: Net, e: Errno)
    requires SocketsConserved(n) && n.state.Connecting? && n.channel.Some? && Classify(e) != GiveUp
    ensures !SocketsConserved(Connect(n, e))
  {
    var r, s := Connect(n, e), n.channel.value;
    RunningIsOpen(n);
    assert multiset(r.closed) == multiset(n.closed) + if Classify(e) == InProgress then multiset{} else multiset{n.sockets};
    assert multiset(r.closed)[s] + multiset(r.handed)[s] == 0;
  }

  /** Exactly when a `connect` keeps the whole invariant. */
  lemma ConnectKeepsInvIff(w: World, inLoop: bool, e: Errno)
    requires Inv(w)
    ensures Inv(Step(w, ClientConnect(inLoop, e)))
            <==> (inLoop && Classify(e) == GiveUp) || (Idle(w) && (inLoop ==> RoomFor(w.net, e)))
  {
    if inLoop && Classify(e) == GiveUp {
      GivenUpKeeps(w, e);
    } else if Idle(w) && (inLoop ==> RoomFor(w.net, e)) {
      StartKeeps(w, inLoop, e);
    } else {
      hide SocketsConserved, ChannelSafe, StopReaches, BackedOff, ChannelsEnd, SlotTracksConnections, Starts, Step;
      ConnectKeepsSocketsIff(w, inLoop, e);
      ConnectKeepsChannelIff(w, inLoop, e);
      ConnectIsSingleIff(w, inLoop, e);
    }
  }

  /** The discipline is what a caller that cannot know the errno has to keep, no more and no less. */
  lemma DisciplineIsExact(w: World, inLoop: bool)
    requires Inv(w)
    ensures (forall e :: Inv(Step(w, ClientConnect(inLoop, e)))) <==> Admitted(w, inLoop)
  {
    hide Inv, Idle, Step;
    forall e ensures Inv(Step(w, ClientConnect(inLoop, e)))
                     <==> (inLoop && Classify(e) == GiveUp) || (Idle(w) && (inLoop ==> RoomFor(w.net, e)))
    {
      ConnectKeepsInvIff(w, inLoop, e);
    }
    assert Classify(EINPROGRESS) == InProgress;
  }

  /** Exactly when a retry timer is safe: its attempt must not get under way in front of a queued reset. */
  lemma TimerKeepsInvIff(w: World, i: nat, e: Errno)
    requires Inv(w) && i < |w.net.retryTimers| && w.net.retryTimers[i] <= w.net.clock
    ensures Inv(FireTimer(w, i, e)) <==> (w.net.connect ==> RoomFor(w.net, e))
  {
    if w.net.connect ==> RoomFor(w.net, e) {
      TimerKeeps(w, i, e);
    } else {
      hide SocketsConserved, ChannelsEnd, BackedOff, SlotTracksConnections, ResetsBeforeStarts;
    }
  }

  /** Exactly when a closed connection is safe: the same for the attempt of its restart. */
  lemma ClosedKeepsInvIff(w: World, conn: Conn, e: Errno)
    requires Inv(w) && conn in w.established && conn !in w.removed
    ensures Inv(RemoveConnection(w, conn, e)) <==> (w.retry && w.connect ==> RoomFor(w.net, e))
  {
    if w.retry && w.connect ==> RoomFor(w.net, e) {
      ClosedKeeps(w, conn, e);
    } else {
      hide SocketsConserved, ChannelsEnd, BackedOff, SlotTracksConnections, ResetsBeforeStarts;
      AppendFunctor(w.net.functors, ConnectDestroyed(conn));
    }
  }

  /** The socket is open, no attempt runs on it, and the client never got it. */
  ghost predicate Leaked(n: Net, s: nat) {
    s < n.sockets && s !in n.closed && s !in n.handed && !(n.state.Connecting? && n.channel == Some(s))
  }

  /** The running attempt is the one on this socket. */
  ghost predicate Running(n: Net, s: nat) {
    s < n.sockets && s !in n.closed && s !in n.handed && n.state.Connecting? && n.channel == Some(s)
  }

  /** A start makes the connector forget the attempt that is running. */
  predicate Overruns(n: Net, e: Errno) {
    n.connect && Classify(e) != GiveUp
  }

  /** The event makes the connector forget the running attempt: another attempt, a reset, a restart. */
  predicate Forgets(w: World, ev: Event) {
    && Enabled(w, ev)
    && match ev
       case ClientConnect(inLoop, e) => inLoop && Classify(e) != GiveUp
       case FunctorRuns(e) =>
         w.net.functors[0].ResetChannel? || (w.net.functors[0].StartInLoop? && Overruns(w.net, e))
       case TimerFires(_, e) => Overruns(w.net, e)
       case Closed(_, _) => w.retry && w.connect
       case _ => false
  }

  ghost predicate ForgottenIn(w: World, evs: seq<Event>, s: nat)
    decreases |evs|
  {
    evs != [] && ((Running(w.net, s) && Forgets(w, evs[0])) || ForgottenIn(Step(w, evs[0]), evs[1..], s))
  }

  lemma LeakAttempt(n: Net, e: Errno, s: nat)
    ensures Leaked(RunStartInLoop(n, e), s) <==> Leaked(n, s) || (Running(n, s) && Overruns(n, e))
  {}

  lemma LeakAbandoned(n: Net, s: nat)
    requires n.state.Connecting? && n.channel.Some?
    ensures Leaked(Abandoned(n), s) <==> Leaked(n, s)
  {}

  lemma LeakHandshake(n: Net, s: nat)
    requires n.state.Connecting? && n.channel.Some?
    ensures Leaked(HandleWrite(n, false, false), s) <==> Leaked(n, s)
  {}

  lemma LeakFunctor(w: World, e: Errno, s: nat)
    requires Enabled(w, FunctorRuns(e))
    ensures Leaked(RunFunctor(w, e).net, s) <==> Leaked(w.net, s) || (Running(w.net, s) && Forgets(w, FunctorRuns(e)))
  {
    var n := w.net.(functors := w.net.functors[1..]);
    match w.net.functors[0] {
      case StartInLoop =>
        LeakAttempt(n, e, s);
        hide RunStartInLoop, RunStopInLoop;
      case StopInLoop =>
        if n.state.Connecting? {
          LeakAbandoned(n, s);
          assert RunStopInLoop(n) == Abandoned(n);
        }
        hide RunStartInLoop, Abandoned;
      case _ =>
    }
  }

  lemma LeakEvent(w: World, ev: Event, s: nat)
    requires Enabled(w, ev) && (ev.Writable? || ev.Errored?)
    ensures Leaked(Step(w, ev).net, s) <==> Leaked(w.net, s)
  {
    if w.net.state.Connecting? {
      LeakAbandoned(w.net, s);
      LeakHandshake(w.net, s);
    }
  }

  /** In every state and for every event: a socket leaks exactly when its running attempt is forgotten. */
  lemma LeakStep(w: World, ev: Event, s: nat)
    ensures Leaked(Step(w, ev).net, s) <==> Leaked(w.net, s) || (Running(w.net, s) && Forgets(w, ev))
  {
    if Enabled(w, ev) {
      match ev {
        case FunctorRuns(e) =>
          LeakFunctor(w, e, s);
          hide RunFunctor, Leaked, Running;
        case Writable(_, _) =>
          LeakEvent(w, ev, s);
          hide OnWritable, Leaked, Running;
        case Errored =>
          LeakEvent(w, ev, s);
          hide HandleError, Leaked, Running;
        case TimerFires(i, e) =>
          var n := w.net.(retryTimers := w.net.retryTimers[..i] + w.net.retryTimers[i + 1..]);
          LeakAttempt(n, e, s);
          assert FireTimer(w, i, e).net == RunStartInLoop(n, e);
          hide RunStartInLoop, FireTimer;
        case ClientConnect(inLoop, e) =>
          LeakAttempt(w.net.(connect := true), e, s);
          hide RunStartInLoop;
        case ClientStop(inLoop) =>
          if inLoop && w.net.state.Connecting? {
            LeakAbandoned(w.net.(connect := false), s);
          }
          hide Retry;
        case Closed(conn, e) =>
          var n := QueueInLoop(w.net, ConnectDestroyed(conn)).(state := Disconnected, connect := true);
          LeakAttempt(n, e, s);
          hide RunStartInLoop;
        case _ =>
      }
    }
  }

  /**
    Over every run, disciplined or not: a socket is leaked at the end exactly when it was leaked at the
    start or its running attempt was forgotten on the way. So no later event ever repairs a leak.
   */
  lemma {:induction false} LeakedIffForgotten(w: World, evs: seq<Event>, s: nat)
    ensures Leaked(Run(w, evs).net, s) <==> Leaked(w.net, s) || ForgottenIn(w, evs, s)
    decreases |evs|
  {
    if evs != [] {
      hide Leaked, Running, Forgets, Step;
      LeakStep(w, evs[0], s);
      LeakedIffForgotten(Step(w, evs[0]), evs[1..], s);
    }
  }

  /** `connect` during an attempt leaks that attempt's socket for ever, unless the new one is given up. */
  lemma OverlapLeaksForEver(w: World, inLoop: bool, e: Errno, evs: seq<Event>)
    requires Inv(w) && w.net.state.Connecting?
    ensures var r, s := Step(w, ClientConnect(inLoop, e)), w.net.channel.value;
            && (Leaked(r.net, s) <==> inLoop && Classify(e) != GiveUp)
            && (Leaked(r.net, s) ==> Leaked(Run(r, evs).net, s))
  {
    var r, s := Step(w, ClientConnect(inLoop, e)), w.net.channel.value;
    RunningIsOpen(w.net);
    LeakStep(w, ClientConnect(inLoop, e), s);
    LeakedIffForgotten(r, evs, s);
  }

  /**
    `stop` and `connect` in one turn of the loop: the `resetChannel` queued by the stop destroys the
    channel of the new attempt, whose socket is leaked whatever follows.
   */
  lemma StopThenConnectLosesTheChannel(later: seq<Event>)
    ensures var evs := [ClientConnect(true, EINPROGRESS), ClientStop(true),
                        ClientConnect(true, EINPROGRESS), FunctorRuns(SUCCESS)];
            var w := Run(INITIAL, evs);
            && w.net.state.Connecting? && w.net.channel.None? && w.net.sockets == 2 && w.net.closed == [0]
            && Leaked(Run(w, later).net, 1)
  {
    var evs := [ClientConnect(true, EINPROGRESS), ClientStop(true),
                ClientConnect(true, EINPROGRESS), FunctorRuns(SUCCESS)];
    LeakedIffForgotten(Run(INITIAL, evs), later, 1);
  }

  /** The same `connect` from another thread is admitted and safe: its functor runs after the reset. */
  lemma StopThenPostedConnectIsSafe()
    ensures var w := Run(INITIAL, [ClientConnect(true, EINPROGRESS), ClientStop(true)]);
            && Targets(w.net.functors) == [0] && Admitted(w, false) && !Admitted(w, true)
            && var n := Run(w, [ClientConnect(false, SUCCESS), FunctorRuns(SUCCESS), FunctorRuns(EINPROGRESS)]).net;
               n.state.Connecting? && n.channel == Some(1) && n.closed == [0]
  {}
}
