/**
  One attempt at a time: the discipline that Connector.cc relies on without checking it, the invariant
  it keeps, and what goes wrong without it.
 */
module ConnectionInvariant {
  import opened Common
  import opened Connection

  // ----- Exponential backoff -----

  /** The delay of the retry timer set after `n` earlier ones. */
  function Delay(n: nat): int {
    if n == 0 then INIT_RETRY_DELAY_MS else Min(Delay(n - 1) * 2, MAX_RETRY_DELAY_MS)
  }

  function Pow2(n: nat): int { if n == 0 then 1 else 2 * Pow2(n - 1) }

  /** The sum of the first `n` delays. */
  function TotalDelay(n: nat): int { if n == 0 then 0 else TotalDelay(n - 1) + Delay(n - 1) }

  lemma {:induction false} DelayIsCappedPower(n: nat)
    ensures Delay(n) == Min(500 * Pow2(n), 30000)
    ensures 500 <= Delay(n) && Delay(n) * 2 <= 60000 && 1 <= Pow2(n)
  {
    if n > 0 {
      DelayIsCappedPower(n - 1);
    }
  }

  lemma {:induction false} TotalDelayFromSix(n: nat)
    requires 6 <= n
    ensures TotalDelay(n) == 31500 + 30000 * (n - 6) && Delay(n) == 30000
  {
    if n == 6 {
      assert Delay(1) == 1000 && Delay(2) == 2000 && Delay(3) == 4000;
      assert Delay(4) == 8000 && Delay(5) == 16000 && Delay(6) == 30000;
      assert TotalDelay(3) == 3500;
    } else {
      TotalDelayFromSix(n - 1);
    }
  }

  // ----- The invariant -----

  /** Attempts still to be started: queued functors and retry timers. */
  ghost function Starts(n: Net): nat { multiset(n.functors)[StartInLoop] + |n.retryTimers| }

  /** Every socket created is in exactly one place: closed once, handed off once, or being connected. */
  ghost predicate SocketsConserved(n: Net) {
    forall s: nat :: multiset(n.closed)[s] + multiset(n.handed)[s] + Count(n.state.Connecting? && n.channel == Some(s))
                     == Count(s < n.sockets)
  }

  /** A channel is taken out of the poller only together with the end of its socket's attempt. */
  ghost predicate ChannelsEnd(n: Net) {
    forall s: nat :: multiset(n.unwatched)[s] <= multiset(n.closed)[s] + multiset(n.handed)[s]
  }

  /** The one channel that a queued `resetChannel` can have been queued for. */
  ghost function LeftOver(n: Net): seq<nat> {
    if n.channel.Some? && !n.state.Connecting? then [n.channel.value] else []
  }

  ghost predicate ResetsBeforeStarts(fs: seq<Functor>) {
    forall i, j :: 0 <= i < j < |fs| && fs[i].StartInLoop? ==> !fs[j].ResetChannel?
  }

  /**
    The running attempt has its channel, a channel left over by an ended attempt has exactly one reset
    queued, its own, and no queued start comes before it.
   */
  ghost predicate ChannelSafe(n: Net) {
    n.ChannelReady() && Targets(n.functors) == LeftOver(n) && ResetsBeforeStarts(n.functors)
  }

  ghost predicate SingleAttempt(w: World) {
    Starts(w.net) + Count(w.net.state.Connecting?) + Count(w.connection.Some?) <= 1
  }

  /** An attempt that outlives a `stop` still has the `stopInLoop` ahead that ends it. */
  ghost predicate StopReaches(n: Net) {
    n.state.Connecting? && !n.connect ==> StopInLoop in n.functors
  }

  /** The delay depends on the number of retries only, and retries keep their distance. */
  ghost predicate BackedOff(n: Net) {
    && n.retryDelayMs == Delay(n.retries)
    && (n.firstAttempt.None? ==> n.retries == 0 && n.sockets == 0 && n.retryTimers == [])
    && (n.firstAttempt.Some? ==>
          && (forall i :: 0 <= i < |n.retryTimers| ==> n.firstAttempt.value + TotalDelay(n.retries) <= n.retryTimers[i])
          && (n.retryTimers == [] ==> n.firstAttempt.value + TotalDelay(n.retries) <= n.clock))
  }

  ghost function SlotOf(w: World): seq<Conn> { if w.connection.Some? then [w.connection.value] else [] }

  /** The connections whose `connectDestroyed` is queued, in order. */
  ghost function Doomed(fs: seq<Functor>): seq<Conn> {
    if fs == [] then [] else (if fs[0].ConnectDestroyed? then [fs[0].conn] else []) + Doomed(fs[1..])
  }

  /**
    `connection_` is the last established connection until that is removed; connections get the ids
    1, 2, ... in order; each removed one is handed to `connectDestroyed` once, in order.
   */
  ghost predicate SlotTracksConnections(w: World) {
    && w.established == w.removed + SlotOf(w)
    && |w.established| == |w.net.handed| && w.nextConnId == |w.established| + 1
    && (forall i :: 0 <= i < |w.established| ==> w.established[i] == Conn(w.net.handed[i], i + 1))
    && w.removed == w.destroyed + Doomed(w.net.functors)
  }

  /** The part of the invariant that concerns the connector alone. */
  ghost predicate NetInv(n: Net) {
    SocketsConserved(n) && ChannelsEnd(n) && ChannelSafe(n) && StopReaches(n) && BackedOff(n)
  }

  ghost predicate Inv(w: World) {
    NetInv(w.net) && SingleAttempt(w) && SlotTracksConnections(w)
  }

  /** No attempt is running, none is to be started, and no connection is live. */
  ghost predicate Idle(w: World) {
    !w.net.state.Connecting? && Starts(w.net) == 0 && w.connection.None?
  }

  /**
    `connect` is called only when nothing is under way, and in the loop thread only when no reset is
    queued any more; in another thread its functor comes after the reset.
   */
  ghost predicate Admitted(w: World, inLoop: bool) {
    Idle(w) && (inLoop ==> Targets(w.net.functors) == [])
  }

  /**
    The discipline: `connect` is admitted, and a retry timer or a close callback that starts an attempt
    comes in a later turn of the loop than the failure or handshake before it, after the reset queued
    then (EventLoop.cc:67-83, 167-183). `stop` may be called at any time.
   */
  ghost predicate Disciplined(w: World, ev: Event) {
    match ev
    case ClientConnect(inLoop, _) => Admitted(w, inLoop)
    case TimerFires(_, _) => w.net.connect ==> Targets(w.net.functors) == []
    case Closed(_, _) => w.retry && w.connect ==> Targets(w.net.functors) == []
    case _ => true
  }

  ghost predicate DisciplinedRun(w: World, evs: seq<Event>)
    decreases |evs|
  {
    evs == [] || (Disciplined(w, evs[0]) && DisciplinedRun(Step(w, evs[0]), evs[1..]))
  }

  lemma {:induction false} AppendFunctor(fs: seq<Functor>, f: Functor)
    ensures Doomed(fs + [f]) == Doomed(fs) + (if f.ConnectDestroyed? then [f.conn] else [])
    ensures Targets(fs + [f]) == Targets(fs) + (if f.ResetChannel? then [f.target] else [])
    ensures multiset(fs + [f]) == multiset(fs) + multiset{f}
  {
    if fs != [] {
      AppendFunctor(fs[1..], f);
      assert (fs + [f])[1..] == fs[1..] + [f];
    }
  }

  lemma PopFunctor(fs: seq<Functor>)
    requires fs != []
    ensures multiset(fs) == multiset{fs[0]} + multiset(fs[1..])
    ensures forall f :: f in fs <==> f == fs[0] || f in fs[1..]
    ensures ResetsBeforeStarts(fs) ==> ResetsBeforeStarts(fs[1..])
    ensures ResetsBeforeStarts(fs) && fs[0].StartInLoop? ==> Targets(fs[1..]) == []
  {
    assert fs == [fs[0]] + fs[1..];
    if ResetsBeforeStarts(fs) && fs[0].StartInLoop? {
      NoResetNoTarget(fs[1..]);
    }
  }

  lemma {:induction false} NoResetNoTarget(fs: seq<Functor>)
    requires forall i :: 0 <= i < |fs| ==> !fs[i].ResetChannel?
    ensures Targets(fs) == []
  {
    if fs != [] {
      NoResetNoTarget(fs[1..]);
    }
  }

  // ----- Every step keeps the invariant -----

  /** The connector may start an attempt. */
  ghost predicate Ready(n: Net) {
    NetInv(n) && !n.state.Connecting? && Starts(n) == 0 && n.connect
  }

  /** An attempt that gets under way takes the place of the channel, so no reset may be queued then. */
  predicate RoomFor(n: Net, e: Errno) {
    Classify(e) == InProgress ==> Targets(n.functors) == []
  }

  lemma AttemptSockets(n: Net, e: Errno)
    requires SocketsConserved(n) && ChannelsEnd(n) && !n.state.Connecting?
    ensures SocketsConserved(Connect(n, e)) && ChannelsEnd(Connect(n, e))
  {
    var r := Connect(n, e);
    assert r.handed == n.handed && r.sockets == n.sockets + 1 && r.unwatched == n.unwatched;
    if Classify(e) == InProgress {
      assert r.closed == n.closed;
    } else {
      assert r.closed == n.closed + [n.sockets] && !r.state.Connecting?;
      assert multiset(r.closed) == multiset(n.closed) + multiset{n.sockets};
    }
  }

  lemma RetryKeepsBackoff(n: Net, s: nat)
    requires BackedOff(n) && n.retryTimers == [] && n.firstAttempt.Some?
    ensures BackedOff(Retry(n, s))
  {}

  /** A retry keeps the law of the delays, and sets its one timer accordingly if a connection is wanted. */
  lemma RetryBacksOff(n: Net, s: nat)
    requires BackedOff(n) && n.retryTimers == [] && n.firstAttempt.Some?
    ensures BackedOff(Retry(n, s)) && Retry(n, s).retries == n.retries + Count(n.connect)
    ensures Retry(n, s).retryTimers == if n.connect then [n.clock + Delay(n.retries)] else []
  {
    RetryKeepsBackoff(n, s);
  }

  lemma AttemptBacksOff(n: Net, e: Errno)
    requires BackedOff(n) && n.retryTimers == []
    ensures BackedOff(Connect(n, e))
  {
    var m := n.(sockets := n.sockets + 1, firstAttempt := if n.firstAttempt.None? then Some(n.clock) else n.firstAttempt);
    assert BackedOff(m);
    RetryKeepsBackoff(m, n.sockets);
  }

  /**
    The attempt gets under way in front of a queued reset, or its failure ends the state of an attempt
    that is running already and leaves that one's channel behind.
   */
  predicate Collides(n: Net, e: Errno) {
    match Classify(e)
    case InProgress => Targets(n.functors) != []
    case TryAgain => n.state.Connecting?
    case GiveUp => false
  }

  lemma AttemptLeavesQueue(n: Net, e: Errno)
    ensures Connect(n, e).functors == n.functors && Connect(n, e).handed == n.handed
  {}

  lemma AttemptChannelIff(n: Net, e: Errno)
    requires ChannelSafe(n)
    ensures ChannelSafe(Connect(n, e)) <==> !Collides(n, e)
  {
    hide ResetsBeforeStarts, Targets, Classify;
    AttemptLeavesQueue(n, e);
  }

  /** An attempt, whatever its errno, leaves one start, one running attempt, or nothing. */
  lemma AttemptKeeps(n: Net, e: Errno)
    requires Ready(n) && RoomFor(n, e)
    ensures NetInv(Connect(n, e))
    ensures Starts(Connect(n, e)) + Count(Connect(n, e).state.Connecting?) <= 1
  {
    hide SocketsConserved, ChannelsEnd, BackedOff, ChannelSafe, Targets;
    AttemptSockets(n, e);
    AttemptBacksOff(n, e);
    AttemptChannelIff(n, e);
    AttemptLeavesQueue(n, e);
  }

  /** Giving up the running attempt: `removeAndResetChannel`, then `retry`. */
  ghost function Abandoned(n: Net): Net
    requires n.state.Connecting? && n.channel.Some?
  {
    Retry(RemoveChannel(n), n.channel.value)
  }

  /** Removing the channel of a running attempt queues its reset behind no start. */
  lemma RemovalIsSafe(n: Net)
    requires ChannelSafe(n) && n.state.Connecting? && StartInLoop !in n.functors
    ensures var fs := RemoveChannel(n).functors;
            && Targets(fs) == [n.channel.value] && ResetsBeforeStarts(fs) && Doomed(fs) == Doomed(n.functors)
            && multiset(fs)[StartInLoop] == 0
  {
    AppendFunctor(n.functors, ResetChannel(n.channel.value));
  }

  lemma AbandonSockets(n: Net)
    requires SocketsConserved(n) && ChannelsEnd(n) && n.state.Connecting? && n.channel.Some?
    ensures SocketsConserved(Abandoned(n)) && ChannelsEnd(Abandoned(n))
  {
    var r, s := Abandoned(n), n.channel.value;
    assert multiset(r.closed) == multiset(n.closed) + multiset{s};
    assert multiset(r.unwatched) == multiset(n.unwatched) + multiset{s};
  }

  /**
    Giving up an attempt closes its socket, removes its channel once, queues the reset that destroys
    that channel, and leaves one start ahead if a connection is still wanted.
   */
  lemma AbandonKeeps(n: Net)
    requires SocketsConserved(n) && ChannelsEnd(n) && ChannelSafe(n) && BackedOff(n) && n.state.Connecting? && Starts(n) == 0
    ensures NetInv(Abandoned(n)) && !Abandoned(n).state.Connecting?
    ensures Starts(Abandoned(n)) == Count(n.connect)
    ensures Doomed(Abandoned(n).functors) == Doomed(n.functors)
  {
    hide SocketsConserved, ChannelsEnd, BackedOff, ResetsBeforeStarts, Targets, Doomed;
    AbandonSockets(n);
    RemovalIsSafe(n);
    AttemptHasBegun(n);
    RetryKeepsBackoff(RemoveChannel(n), n.channel.value);
  }

  lemma AttemptHasBegun(n: Net)
    requires SocketsConserved(n) && BackedOff(n) && n.state.Connecting? && n.channel.Some?
    ensures n.firstAttempt.Some? && BackedOff(RemoveChannel(n))
  {
    assert multiset(n.closed)[n.channel.value] >= 0;
  }

  lemma StopInLoopKeeps(n: Net)
    requires SocketsConserved(n) && ChannelsEnd(n) && ChannelSafe(n) && BackedOff(n)
    requires n.state.Connecting? ==> Starts(n) == 0
    ensures var r := RunStopInLoop(n);
            && NetInv(r) && !r.state.Connecting? && Doomed(r.functors) == Doomed(n.functors)
            && Starts(r) == if n.state.Connecting? then Count(n.connect) else Starts(n)
  {
    hide SocketsConserved, ChannelsEnd, BackedOff;
    if n.state.Connecting? {
      AbandonKeeps(n);
      assert RunStopInLoop(n) == Abandoned(n);
    }
  }

  /** The connector after taking the oldest functor out of the queue. */
  lemma PoppedNet(n: Net)
    requires NetInv(n) && n.functors != []
    ensures var f := n.functors[0];
            var r := n.(functors := n.functors[1..]);
            && SocketsConserved(r) && ChannelsEnd(r) && BackedOff(r)
            && Starts(r) + Count(f.StartInLoop?) == Starts(n)
            && (!f.ResetChannel? ==> ChannelSafe(r))
            && (!f.StopInLoop? ==> StopReaches(r))
            && (f.StartInLoop? ==> Targets(r.functors) == [])
            && Doomed(n.functors) == (if f.ConnectDestroyed? then [f.conn] else []) + Doomed(r.functors)
  {
    PopFunctor(n.functors);
  }

  /** A reset that runs destroys the channel it was queued for, and nothing else was in its place. */
  lemma ResetHitsItsChannel(n: Net)
    requires NetInv(n) && n.functors != [] && n.functors[0].ResetChannel?
    ensures !n.state.Connecting? && n.channel == Some(n.functors[0].target)
    ensures NetInv(n.(functors := n.functors[1..], channel := None))
  {
    PoppedNet(n);
    PopFunctor(n.functors);
    hide SocketsConserved, ChannelsEnd, BackedOff, ResetsBeforeStarts;
    assert Targets(n.functors)[0] == n.functors[0].target && |LeftOver(n)| == 1;
    var r := n.(functors := n.functors[1..], channel := None);
    assert SocketsConserved(r) && ChannelsEnd(r) by { ResetSockets(n); }
    assert BackedOff(r) by { SameBackoff(n, r); }
  }

  lemma ResetSockets(n: Net)
    requires SocketsConserved(n) && ChannelsEnd(n) && !n.state.Connecting? && n.functors != []
    ensures var r := n.(functors := n.functors[1..], channel := None);
            SocketsConserved(r) && ChannelsEnd(r)
  {}

  lemma SameBackoff(n: Net, r: Net)
    requires BackedOff(n) && r == n.(functors := r.functors, channel := r.channel)
    ensures BackedOff(r)
  {}

  lemma StartRuns(n: Net, e: Errno)
    requires NetInv(n) && Starts(n) + Count(n.state.Connecting?) <= 1 && n.functors != [] && n.functors[0].StartInLoop?
    ensures var r := RunStartInLoop(n.(functors := n.functors[1..]), e);
            NetInv(r) && Starts(r) + Count(r.state.Connecting?) <= 1
  {
    hide SocketsConserved, ChannelsEnd, BackedOff, ResetsBeforeStarts, Targets;
    PoppedNet(n);
    var m := n.(functors := n.functors[1..]);
    if m.connect {
      AttemptKeeps(m, e);
    }
  }

  lemma StopRuns(n: Net)
    requires NetInv(n) && Starts(n) + Count(n.state.Connecting?) <= 1 && n.functors != [] && n.functors[0].StopInLoop?
    ensures var r := RunStopInLoop(n.(functors := n.functors[1..]));
            NetInv(r) && Starts(r) <= Starts(n) + Count(n.state.Connecting?) && !r.state.Connecting?
  {
    hide SocketsConserved, ChannelsEnd, BackedOff, ResetsBeforeStarts, Targets;
    PoppedNet(n);
    StopInLoopKeeps(n.(functors := n.functors[1..]));
  }

  lemma FunctorKeepsNet(w: World, e: Errno)
    requires Inv(w) && w.net.functors != []
    ensures NetInv(RunFunctor(w, e).net) && SingleAttempt(RunFunctor(w, e))
  {
    hide SlotTracksConnections, SocketsConserved, ChannelsEnd, BackedOff, ResetsBeforeStarts, Targets;
    hide RunStartInLoop, RunStopInLoop;
    match w.net.functors[0] {
      case StartInLoop => StartRuns(w.net, e);
      case StopInLoop => StopRuns(w.net);
      case ResetChannel(_) => PoppedNet(w.net); ResetHitsItsChannel(w.net);
      case ConnectDestroyed(_) => PoppedNet(w.net);
    }
  }

  /** The connector's own steps leave the client's slot alone, as long as they hand nothing off. */
  lemma SlotUntouched(w: World, n: Net)
    requires SlotTracksConnections(w) && n.handed == w.net.handed && Doomed(n.functors) == Doomed(w.net.functors)
    ensures SlotTracksConnections(w.(net := n)) && forall c :: SlotTracksConnections(w.(connect := c, net := n))
  {}

  lemma StopInLoopQueue(n: Net)
    requires n.ChannelReady()
    ensures var r := RunStopInLoop(n); Doomed(r.functors) == Doomed(n.functors) && r.handed == n.handed
  {
    if n.state.Connecting? {
      AppendFunctor(n.functors, ResetChannel(n.channel.value));
    }
  }

  lemma FunctorKeepsSlot(w: World, e: Errno)
    requires SlotTracksConnections(w) && w.net.functors != [] && w.net.ChannelReady()
    ensures SlotTracksConnections(RunFunctor(w, e))
  {
    hide Connect;
    var n, r := w.net, RunFunctor(w, e);
    AttemptLeavesQueue(n.(functors := n.functors[1..]), e);
    match n.functors[0] {
      case ConnectDestroyed(conn) =>
        assert r.removed == r.destroyed + Doomed(r.net.functors);
      case StopInLoop =>
        hide SlotTracksConnections;
        StopInLoopQueue(n.(functors := n.functors[1..]));
        SlotUntouched(w, r.net);
      case _ =>
        hide SlotTracksConnections;
        SlotUntouched(w, r.net);
    }
  }

  lemma FunctorKeeps(w: World, e: Errno)
    requires Inv(w) && w.net.functors != []
    ensures Inv(RunFunctor(w, e))
  {
    FunctorKeepsNet(w, e);
    FunctorKeepsSlot(w, e);
  }

  lemma HandshakeSockets(n: Net)
    requires SocketsConserved(n) && ChannelsEnd(n) && n.state.Connecting? && n.channel.Some?
    ensures SocketsConserved(HandleWrite(n, false, false)) && ChannelsEnd(HandleWrite(n, false, false))
  {
    var r, s := HandleWrite(n, false, false), n.channel.value;
    assert multiset(r.unwatched) == multiset(n.unwatched) + multiset{s};
    assert multiset(r.closed) == multiset(n.closed) + (if n.connect then multiset{} else multiset{s});
    assert multiset(r.handed) == multiset(n.handed) + (if n.connect then multiset{s} else multiset{});
  }

  lemma HandshakeBackoff(n: Net)
    requires BackedOff(n) && n.ChannelReady() && n.state.Connecting?
    ensures BackedOff(HandleWrite(n, false, false))
  {}

  lemma HandshakeKeepsNet(n: Net)
    requires NetInv(n) && n.state.Connecting? && Starts(n) == 0
    ensures var r := HandleWrite(n, false, false);
            NetInv(r) && Starts(r) == 0 && !r.state.Connecting? && Doomed(r.functors) == Doomed(n.functors)
  {
    hide SocketsConserved, ChannelsEnd, BackedOff, ResetsBeforeStarts, Targets, Doomed;
    HandshakeSockets(n);
    RemovalIsSafe(n);
    HandshakeBackoff(n);
  }

  lemma HandshakeKeepsSlot(w: World)
    requires SlotTracksConnections(w) && w.connection.None? && w.net.state.Connecting? && w.net.channel.Some?
    ensures SlotTracksConnections(OnWritable(w, false, false))
  {
    AppendFunctor(w.net.functors, ResetChannel(w.net.channel.value));
    assert w.established == w.removed;
  }

  /** The write event keeps the invariant for every socket error and self-connect, stopped or not. */
  lemma WritableKeeps(w: World, error: bool, self: bool)
    requires Inv(w)
    ensures Inv(OnWritable(w, error, self))
  {
    if w.net.state.Connecting? {
      hide SocketsConserved, ChannelsEnd, BackedOff;
      if error || self {
        AbandonKeeps(w.net);
        SlotUntouched(w, Abandoned(w.net));
      } else {
        HandshakeKeepsNet(w.net);
        HandshakeKeepsSlot(w);
        hide SlotTracksConnections;
        assert OnWritable(w, error, self) == OnWritable(w, false, false);
      }
    }
  }

  lemma ErroredKeeps(w: World)
    requires Inv(w)
    ensures Inv(w.(net := HandleError(w.net)))
  {
    if w.net.state.Connecting? {
      hide SocketsConserved, ChannelsEnd, BackedOff;
      AbandonKeeps(w.net);
      SlotUntouched(w, HandleError(w.net));
    }
  }

  lemma InvFromParts(w: World)
    requires NetInv(w.net) && SingleAttempt(w) && SlotTracksConnections(w)
    ensures Inv(w)
  {}

  lemma FiredNet(n: Net, i: nat)
    requires NetInv(n) && i < |n.retryTimers| && Starts(n) <= 1 && n.retryTimers[i] <= n.clock
    ensures var r := n.(retryTimers := n.retryTimers[..i] + n.retryTimers[i + 1..]);
            NetInv(r) && Starts(r) == 0 && Starts(n) == 1
  {
    var r := n.(retryTimers := n.retryTimers[..i] + n.retryTimers[i + 1..]);
    assert r.retryTimers == [];
  }

  lemma TimerKeeps(w: World, i: nat, e: Errno)
    requires Inv(w) && i < |w.net.retryTimers| && w.net.retryTimers[i] <= w.net.clock
    requires w.net.connect ==> RoomFor(w.net, e)
    ensures Inv(FireTimer(w, i, e))
  {
    var n := w.net.(retryTimers := w.net.retryTimers[..i] + w.net.retryTimers[i + 1..]);
    FiredNet(w.net, i);
    SlotUntouched(w, FireTimer(w, i, e).net);
    hide SlotTracksConnections, NetInv, Starts;
    if n.connect {
      AttemptKeeps(n, e);
    }
    InvFromParts(FireTimer(w, i, e));
  }

  /** `restart` makes an idle connector ready, whatever its state was. */
  lemma RestartReady(n: Net)
    requires NetInv(n) && !n.state.Connecting? && Starts(n) == 0
    ensures Ready(n.(state := Disconnected, connect := true))
  {
    hide SocketsConserved, ChannelsEnd, BackedOff, ResetsBeforeStarts, Targets;
    QueueKeeps(n, true, StartInLoop);
  }

  /** The state of `removeConnection` between the functor it queues and the restart. */
  lemma ClosedPrepares(w: World, conn: Conn)
    requires Inv(w) && w.connection == Some(conn)
    ensures var n := QueueInLoop(w.net, ConnectDestroyed(conn));
            && NetInv(n) && Ready(n.(state := Disconnected, connect := true)) && Starts(n) == 0
            && Targets(n.functors) == Targets(w.net.functors)
  {
    hide SlotTracksConnections, SocketsConserved, ChannelsEnd, BackedOff, ResetsBeforeStarts, Targets, Doomed;
    AppendFunctor(w.net.functors, ConnectDestroyed(conn));
    QueueKeeps(w.net, true, ConnectDestroyed(conn));
    OrderKept(w.net.functors, ConnectDestroyed(conn));
    var n := QueueInLoop(w.net, ConnectDestroyed(conn));
    assert NetInv(n);
    hide NetInv;
    RestartReady(n);
  }

  lemma ClosedPreparesSlot(w: World, conn: Conn)
    requires SlotTracksConnections(w) && w.connection == Some(conn)
    ensures var n := QueueInLoop(w.net, ConnectDestroyed(conn));
            SlotTracksConnections(w.(connection := None, removed := w.removed + [conn], net := n))
  {
    AppendFunctor(w.net.functors, ConnectDestroyed(conn));
  }

  lemma OrderKept(fs: seq<Functor>, f: Functor)
    requires ResetsBeforeStarts(fs) && !f.ResetChannel?
    ensures ResetsBeforeStarts(fs + [f])
  {}

  /** Queueing a functor and setting flags concerns neither sockets nor delays. */
  lemma QueueKeeps(n: Net, connect: bool, f: Functor)
    requires SocketsConserved(n) && ChannelsEnd(n) && BackedOff(n)
    ensures var r := QueueInLoop(n, f); SocketsConserved(r) && ChannelsEnd(r) && BackedOff(r)
    ensures var r := QueueInLoop(n.(connect := connect), f); SocketsConserved(r) && ChannelsEnd(r) && BackedOff(r)
    ensures var r := n.(connect := connect); SocketsConserved(r) && ChannelsEnd(r) && BackedOff(r)
    ensures !n.state.Connecting? ==>
              var r := n.(state := Disconnected, connect := connect);
              SocketsConserved(r) && ChannelsEnd(r) && BackedOff(r)
  {}

  lemma ClosedKeeps(w: World, conn: Conn, e: Errno)
    requires Inv(w) && conn in w.established && conn !in w.removed
    requires w.retry && w.connect ==> RoomFor(w.net, e)
    ensures Inv(RemoveConnection(w, conn, e))
  {
    hide SlotTracksConnections, NetInv, Starts, Ready, Connect, Doomed, Targets;
    var n := QueueInLoop(w.net, ConnectDestroyed(conn));
    InvGivesConnection(w, conn);
    ClosedPrepares(w, conn);
    ClosedPreparesSlot(w, conn);
    AttemptLeavesQueue(n.(state := Disconnected, connect := true), e);
    SlotUntouched(w.(connection := None, removed := w.removed + [conn], net := n), RemoveConnection(w, conn, e).net);
    if w.retry && w.connect {
      ReadyConnects(n.(state := Disconnected, connect := true));
      AttemptKeeps(n.(state := Disconnected, connect := true), e);
    }
    InvFromParts(RemoveConnection(w, conn, e));
  }

  lemma ReadyConnects(n: Net)
    requires Ready(n)
    ensures n.connect
  {}

  /** A start or stop handed over by another thread. */
  lemma PostedKeeps(w: World, f: Functor)
    requires Inv(w) && (f.StopInLoop? || (f.StartInLoop? && Idle(w)))
    ensures Inv(w.(net := QueueInLoop(w.net.(connect := f.StartInLoop?), f)))
  {
    hide SlotTracksConnections, SocketsConserved, ChannelsEnd, BackedOff, ResetsBeforeStarts, Targets, Doomed;
    QueueKeeps(w.net, f.StartInLoop?, f);
    AppendFunctor(w.net.functors, f);
    PostedIsSafe(w.net, f);
    SlotUntouched(w, QueueInLoop(w.net.(connect := f.StartInLoop?), f));
  }

  lemma PostedIsSafe(n: Net, f: Functor)
    requires ChannelSafe(n) && !f.ResetChannel?
    ensures ChannelSafe(QueueInLoop(n.(connect := f.StartInLoop?), f))
  {
    hide Targets, Doomed, ResetsBeforeStarts;
    AppendFunctor(n.functors, f);
    OrderKept(n.functors, f);
  }

  lemma StopKeeps(w: World, inLoop: bool)
    requires Inv(w)
    ensures Inv(w.(connect := false, net := Stop(w.net, inLoop)))
  {
    if inLoop {
      var n := w.net.(connect := false);
      QueueKeeps(w.net, false, StopInLoop);
      StopInLoopQueue(n);
      SlotUntouched(w.(connect := false), RunStopInLoop(n));
      hide SlotTracksConnections, SocketsConserved, ChannelsEnd, BackedOff, ResetsBeforeStarts, Targets, Doomed;
      StopInLoopKeeps(n);
    } else {
      PostedKeeps(w, StopInLoop);
      FlagsKeep(w.(net := Stop(w.net, false)), false, w.retry, 0);
    }
  }

  lemma StartPrepares(w: World, e: Errno)
    requires Inv(w) && Idle(w)
    ensures Ready(w.net.(connect := true)) && w.connection.None?
    ensures SlotTracksConnections(w.(connect := true, net := Connect(w.net.(connect := true), e)))
  {}

  lemma StartKeeps(w: World, inLoop: bool, e: Errno)
    requires Inv(w) && Idle(w) && (inLoop ==> RoomFor(w.net, e))
    ensures Inv(w.(connect := true, net := Start(w.net, inLoop, e)))
  {
    if inLoop {
      var n := w.net.(connect := true);
      StartPrepares(w, e);
      hide Inv, Idle, SlotTracksConnections, NetInv, Starts, Ready, Connect;
      AttemptKeeps(n, e);
      InvFromParts(w.(connect := true, net := Connect(n, e)));
    } else {
      PostedKeeps(w, StartInLoop);
      FlagsKeep(w.(net := Start(w.net, false, e)), true, w.retry, 0);
    }
  }

  lemma FlagsKeep(w: World, connect: bool, retry: bool, ticks: nat)
    requires Inv(w)
    ensures Inv(w.(connect := connect, retry := retry, net := w.net.(clock := w.net.clock + ticks)))
  {}

  /** The invariant is kept by every disciplined step, whatever the kernel and the peers do. */
  lemma StepKeeps(w: World, ev: Event)
    requires Inv(w) && Disciplined(w, ev)
    ensures Inv(Step(w, ev))
  {
    hide Inv, Idle, RunFunctor, FireTimer, OnWritable, RemoveConnection, HandleError, Start, Stop;
    if Enabled(w, ev) {
      match ev {
        case ClientConnect(inLoop, e) => StartKeeps(w, inLoop, e);
        case ClientStop(inLoop) => StopKeeps(w, inLoop);
        case ClientDisconnect => FlagsKeep(w, false, w.retry, 0);
        case EnableRetry => FlagsKeep(w, w.connect, true, 0);
        case FunctorRuns(e) => FunctorKeeps(w, e);
        case TimerFires(i, e) => TimerKeeps(w, i, e);
        case Writable(error, self) => WritableKeeps(w, error, self);
        case Errored => ErroredKeeps(w);
        case Closed(conn, e) => ClosedKeeps(w, conn, e);
        case TimePasses(ticks) => FlagsKeep(w, w.connect, w.retry, ticks);
      }
    }
  }

  lemma InitialInv()
    ensures Inv(INITIAL)
  {}

  /** Every state reached under the discipline satisfies the invariant. */
  lemma {:induction false} RunKeeps(w: World, evs: seq<Event>)
    requires Inv(w) && DisciplinedRun(w, evs)
    ensures Inv(Run(w, evs))
    decreases |evs|
  {
    if evs != [] {
      StepKeeps(w, evs[0]);
      RunKeeps(Step(w, evs[0]), evs[1..]);
    }
  }

  lemma InvGivesChannel(w: World)
    requires Inv(w)
    ensures w.net.ChannelReady()
  {}

  /** Only the connection in the slot can still be closed. */
  lemma InvGivesConnection(w: World, conn: Conn)
    requires Inv(w)
    ensures conn in w.established && conn !in w.removed <==> w.connection == Some(conn)
    ensures forall e :: Enabled(w, Closed(conn, e)) <==> w.connection == Some(conn)
  {
    if w.connection == Some(conn) {
      assert w.established[|w.removed|] == conn;
      forall i | 0 <= i < |w.removed| ensures w.removed[i] != conn {
        assert w.removed[i] == w.established[i];
      }
    }
  }
}
