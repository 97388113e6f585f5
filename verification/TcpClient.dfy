/**
  The connector and the client as objects on one event loop (EventLoop.cc, Connector.cc, TcpClient.cc).
  Every method follows the source step by step. Its contract ties it to the functions of module
  Connection and says what it keeps of the invariant, or exactly when it does.
 */
module TcpClientModel {
  import opened Common
  import opened Connection
  import opened ConnectionNames
  import opened ConnectionInvariant
  import opened ConnectionOutcomes
  import opened ConnectionRuns

  lemma AttemptMeans(n: Net, e: Errno)
    ensures Ready(n) && RoomFor(n, e) ==>
              var r := Connection.Connect(n, e); NetInv(r) && Starts(r) + Count(r.state.Connecting?) <= 1
    ensures NetInv(n) ==>
              (SocketsConserved(Connection.Connect(n, e)) <==> !(n.state.Connecting? && Classify(e) != GiveUp))
  {
    hide SocketsConserved, ChannelsEnd, BackedOff, Starts, Connection.Connect;
    if Ready(n) && RoomFor(n, e) {
      AttemptKeeps(n, e);
    }
    if NetInv(n) {
      AttemptSocketsIff(n, e);
    }
  }

  lemma StartMeans(n: Net, inLoop: bool, e: Errno)
    requires NetInv(n) && !n.state.Connecting? && Starts(n) == 0 && (inLoop ==> RoomFor(n, e))
    ensures var r := Connection.Start(n, inLoop, e); NetInv(r) && Starts(r) + Count(r.state.Connecting?) <= 1
  {
    hide SocketsConserved, ChannelsEnd, BackedOff, ChannelSafe, Connection.Connect;
    QueueKeeps(n, true, StartInLoop);
    if inLoop {
      SetFlag(n);
      AttemptKeeps(n.(connect := true), e);
    } else {
      AppendFunctor(n.functors, StartInLoop);
      PostedIsSafe(n, StartInLoop);
    }
  }

  lemma ConnectEnds(n: Net, e: Errno)
    requires n.connect
    ensures Ends(n, Connection.Connect(n, e), n.retryTimers, e)
  {
    StartEnds(n, e);
    hide Connection.Connect, Ends;
  }

  lemma StartWants(n: Net, inLoop: bool, e: Errno)
    ensures Connection.Start(n, inLoop, e).connect
  {}

  lemma RestartEnds(n: Net, e: Errno)
    ensures Ends(n, Connection.Restart(n, e), n.retryTimers, e)
  {
    StartEnds(n.(state := Disconnected, connect := true), e);
    hide RunStartInLoop;
  }

  lemma RestartMeans(n: Net, e: Errno)
    requires NetInv(n) && !n.state.Connecting? && Starts(n) == 0 && RoomFor(n, e)
    ensures var r := Connection.Restart(n, e); NetInv(r) && Starts(r) + Count(r.state.Connecting?) <= 1
  {
    hide NetInv, Ready, Starts, Connection.Connect;
    RestartReady(n);
    ReadyConnects(n.(state := Disconnected, connect := true));
    AttemptKeeps(n.(state := Disconnected, connect := true), e);
  }

  /** The ways an attempt ends, as far as the connector's own invariant is concerned. */
  lemma StopMeans(n: Net)
    requires n.ChannelReady()
    ensures NetInv(n) && (n.state.Connecting? ==> Starts(n) == 0) ==> NetInv(RunStopInLoop(n))
  {
    if NetInv(n) && (n.state.Connecting? ==> Starts(n) == 0) {
      StopInLoopKeeps(n);
    }
  }

  lemma StopCallMeans(n: Net, inLoop: bool)
    requires NetInv(n) && (inLoop && n.state.Connecting? ==> Starts(n) == 0)
    ensures NetInv(Connection.Stop(n, inLoop))
  {
    hide SocketsConserved, ChannelsEnd, BackedOff, Targets, ResetsBeforeStarts;
    QueueKeeps(n, false, StopInLoop);
    if inLoop {
      SetFlag(n);
      StopInLoopKeeps(n.(connect := false));
    } else {
      PostedIsSafe(n, StopInLoop);
    }
  }

  lemma ErrorMeans(n: Net)
    requires n.ChannelReady()
    ensures NetInv(n) && (n.state.Connecting? ==> Starts(n) == 0) ==> NetInv(Connection.HandleError(n))
  {
    if NetInv(n) && Starts(n) == 0 && n.state.Connecting? {
      AbandonKeeps(n);
    }
  }

  lemma WriteMeans(n: Net, error: bool, self: bool)
    requires n.ChannelReady()
    ensures NetInv(n) && (n.state.Connecting? ==> Starts(n) == 0) ==> NetInv(Connection.HandleWrite(n, error, self))
  {
    if NetInv(n) && Starts(n) == 0 && n.state.Connecting? {
      AbandonKeeps(n);
      HandshakeKeepsNet(n);
    }
  }

  class EventLoop {
    var pendingFunctors: seq<Functor>
    /** When the connector's retry timers are due. */
    var retryTimers: seq<int>
    var clock: int

    constructor ()
      ensures pendingFunctors == [] && retryTimers == [] && clock == 0
    {
      pendingFunctors, retryTimers, clock := [], [], 0;
    }

    method QueueInLoop(f: Functor)
      modifies this`pendingFunctors
      ensures pendingFunctors == old(pendingFunctors) + [f]
    {
      pendingFunctors := pendingFunctors + [f];
    }

    method TakeFunctor() returns (f: Functor)
      requires pendingFunctors != []
      modifies this`pendingFunctors
      ensures old(pendingFunctors) == [f] + pendingFunctors
    {
      f := pendingFunctors[0];
      pendingFunctors := pendingFunctors[1..];
    }

    method RunAfter(delay: int)
      modifies this`retryTimers
      ensures retryTimers == old(retryTimers) + [clock + delay]
    {
      retryTimers := retryTimers + [clock + delay];
    }
  }

  class Connector {
    const loop: EventLoop
    var connect: bool
    var state: State
    var channel: Option<nat>
    var retryDelayMs: int

    /** What the kernel has seen: sockets created, closed, and given to the new-connection callback. */
    var sockets: nat
    ghost var closed: seq<nat>
    ghost var handed: seq<nat>
    ghost var unwatched: seq<nat>
    ghost var retries: nat
    ghost var firstAttempt: Option<int>

    ghost function View(): Net
      reads this, loop
    {
      Net(loop.pendingFunctors, loop.retryTimers, loop.clock, connect, state, channel, retryDelayMs,
          sockets, closed, handed, unwatched, retries, firstAttempt)
    }

    constructor (loop: EventLoop)
      ensures this.loop == loop
      ensures View() == INITIAL_NET.(functors := loop.pendingFunctors, retryTimers := loop.retryTimers, clock := loop.clock)
    {
      this.loop := loop;
      connect, state, channel, retryDelayMs := false, Disconnected, None, INIT_RETRY_DELAY_MS;
      sockets, closed, handed, unwatched, retries, firstAttempt := 0, [], [], [], 0, None;
    }

    /** `::close`. */
    method CloseFd(sockfd: nat)
      modifies this`closed
      ensures View() == CloseSocket(old(View()), sockfd)
    {
      closed := closed + [sockfd];
    }

    method RetryLater(sockfd: nat)
      modifies this, loop
      ensures View() == Retry(old(View()), sockfd)
      ensures Delayed(old(View()), View(), old(loop.retryTimers), connect)
    {
      CloseFd(sockfd);
      state := Disconnected;
      if connect {
        loop.RunAfter(retryDelayMs);
        retryDelayMs := Min(retryDelayMs * 2, MAX_RETRY_DELAY_MS);
        retries := retries + 1;
      }
    }

    /** `connecting`: the channel replaces whatever channel there was. */
    method WatchSocket(sockfd: nat)
      modifies this`state, this`channel
      ensures View() == old(View()).(state := Connecting, channel := Some(sockfd))
    {
      state := Connecting;
      channel := Some(sockfd);
    }

    /** The branches of the switch in `connect`. */
    method SwitchOnErrno(savedErrno: Errno) returns (outcome: Outcome)
      ensures outcome == Classify(savedErrno)
      ensures outcome == InProgress <==> savedErrno in {SUCCESS, EINPROGRESS, EINTR, EISCONN}
      ensures outcome == TryAgain <==> savedErrno in {EAGAIN, EADDRINUSE, EADDRNOTAVAIL, ECONNREFUSED, ENETUNREACH}
    {
      match savedErrno {
        case SUCCESS | EINPROGRESS | EINTR | EISCONN => outcome := InProgress;
        case EAGAIN | EADDRINUSE | EADDRNOTAVAIL | ECONNREFUSED | ENETUNREACH => outcome := TryAgain;
        case EACCES | EPERM | EAFNOSUPPORT | EALREADY | EBADF | EFAULT | ENOTSOCK => outcome := GiveUp;
        case UNEXPECTED => outcome := GiveUp;
      }
    }

    /** One attempt. It loses a socket exactly when it overlaps another attempt and is not given up. */
    method ConnectSocket(savedErrno: Errno)
      modifies this, loop
      ensures View() == Connect(old(View()), savedErrno)
      ensures Ready(old(View())) && RoomFor(old(View()), savedErrno) ==>
                NetInv(View()) && Starts(View()) + Count(state == Connecting) <= 1
      ensures NetInv(old(View())) ==>
                (SocketsConserved(View()) <==> !(old(state) == Connecting && Classify(savedErrno) != GiveUp))
      ensures old(connect) ==> Ends(old(View()), View(), old(loop.retryTimers), savedErrno)
    {
      hide Ends, Delayed, Retry, CloseSocket, Classify, NetInv, Ready, Starts, SocketsConserved, RoomFor;
      ghost var before := View();
      var sockfd := sockets;
      sockets := sockets + 1;
      firstAttempt := if firstAttempt.None? then Some(loop.clock) else firstAttempt;
      var outcome := SwitchOnErrno(savedErrno);
      match outcome {
        case InProgress => WatchSocket(sockfd);
        case TryAgain => RetryLater(sockfd);
        case GiveUp => CloseFd(sockfd);
      }
      AttemptMeans(before, savedErrno);
      if before.connect {
        ConnectEnds(before, savedErrno);
      }
    }

    method DoStartInLoop(savedErrno: Errno)
      modifies this, loop
      ensures View() == RunStartInLoop(old(View()), savedErrno)
      ensures if old(connect) then Ends(old(View()), View(), old(loop.retryTimers), savedErrno) else View() == old(View())
      ensures Ready(old(View())) && RoomFor(old(View()), savedErrno) ==>
                NetInv(View()) && Starts(View()) + Count(state == Connecting) <= 1
    {
      hide Ends, Connect, NetInv, Ready, Starts, SocketsConserved, RoomFor;
      if connect {
        ConnectSocket(savedErrno);
      } else if Ready(View()) {
        ReadyConnects(View());
      }
    }

    method Start(inLoop: bool, savedErrno: Errno)
      modifies this, loop
      ensures View() == Connection.Start(old(View()), inLoop, savedErrno)
      ensures NetInv(old(View())) && old(state) != Connecting && Starts(old(View())) == 0
              && (inLoop ==> RoomFor(old(View()), savedErrno)) ==>
                NetInv(View()) && Starts(View()) + Count(state == Connecting) <= 1
    {
      hide Connect, NetInv, Ready, Starts, SocketsConserved, RoomFor;
      if NetInv(View()) && state != Connecting && Starts(View()) == 0 && (inLoop ==> RoomFor(View(), savedErrno)) {
        StartMeans(View(), inLoop, savedErrno);
      }
      connect := true;
      if inLoop {
        DoStartInLoop(savedErrno);
      } else {
        loop.QueueInLoop(StartInLoop);
      }
    }

    method RemoveAndResetChannel() returns (sockfd: nat)
      requires channel.Some?
      modifies this`unwatched, loop`pendingFunctors
      ensures View() == RemoveChannel(old(View())) && sockfd == channel.value
    {
      sockfd := channel.value;
      unwatched := unwatched + [sockfd];
      loop.QueueInLoop(ResetChannel(sockfd));
    }

    method DoStopInLoop()
      requires View().ChannelReady()
      modifies this, loop
      ensures View() == RunStopInLoop(old(View())) && state != Connecting
      ensures NetInv(old(View())) && (old(state) == Connecting ==> Starts(old(View())) == 0) ==> NetInv(View())
    {
      hide NetInv, Starts;
      StopMeans(View());
      if state == Connecting {
        state := Disconnected;
        var sockfd := RemoveAndResetChannel();
        RetryLater(sockfd);
      }
    }

    method Stop(inLoop: bool)
      requires inLoop ==> View().ChannelReady()
      modifies this, loop
      ensures View() == Connection.Stop(old(View()), inLoop)
      ensures !connect && (inLoop ==> state != Connecting)
      ensures NetInv(old(View())) && (inLoop && old(state) == Connecting ==> Starts(old(View())) == 0) ==> NetInv(View())
    {
      hide NetInv, Starts;
      if NetInv(View()) && (inLoop && state == Connecting ==> Starts(View()) == 0) {
        StopCallMeans(View(), inLoop);
      }
      connect := false;
      if inLoop {
        DoStopInLoop();
      } else {
        loop.QueueInLoop(StopInLoop);
      }
    }

    method Restart(savedErrno: Errno)
      modifies this, loop
      ensures View() == Connection.Restart(old(View()), savedErrno)
      ensures NetInv(old(View())) && old(state) != Connecting && Starts(old(View())) == 0
              && RoomFor(old(View()), savedErrno) ==>
                NetInv(View()) && Starts(View()) + Count(state == Connecting) <= 1
    {
      hide Connect, NetInv, Ready, Starts, SocketsConserved, RoomFor;
      if NetInv(View()) && state != Connecting && Starts(View()) == 0 && RoomFor(View(), savedErrno) {
        RestartMeans(View(), savedErrno);
      }
      state := Disconnected;
      connect := true;
      DoStartInLoop(savedErrno);
    }

    /** The oldest functor, if it is one of the connector's. */
    method RunPendingFunctor(savedErrno: Errno)
      requires loop.pendingFunctors != [] && !loop.pendingFunctors[0].ConnectDestroyed?
      requires loop.pendingFunctors[0].StopInLoop? ==> View().ChannelReady()
      modifies this, loop
      ensures var n := old(View()).(functors := old(loop.pendingFunctors)[1..]);
              View() == match old(loop.pendingFunctors)[0]
                        case StartInLoop => RunStartInLoop(n, savedErrno)
                        case StopInLoop => RunStopInLoop(n)
                        case ResetChannel(_) => n.(channel := None)
                        case ConnectDestroyed(_) => n
    {
      hide NetInv, Starts, Ready, RoomFor, RunStartInLoop, RunStopInLoop;
      var functor := loop.TakeFunctor();
      match functor {
        case StartInLoop => DoStartInLoop(savedErrno);
        case StopInLoop => DoStopInLoop();
        case ResetChannel(_) => channel := None;
      }
    }

    /**
      The last thing it may do is call `newConnectionCallback_`, here with the returned socket. The
      attempt ends in one of three ways: handed off, closed for good, or closed with a retry ahead.
     */
    method HandleWrite(soError: bool, selfConnect: bool) returns (newConnection: Option<nat>)
      requires View().ChannelReady()
      modifies this, loop
      ensures View() == Connection.HandleWrite(old(View()), soError, selfConnect)
      ensures newConnection == if |handed| > |old(handed)| then old(channel) else None
      ensures state != Connecting
      ensures NetInv(old(View())) && (old(state) == Connecting ==> Starts(old(View())) == 0) ==> NetInv(View())
      ensures old(state) == Connecting ==>
                && (newConnection.Some? <==> connect && !soError && !selfConnect)
                && (closed == old(closed) + [old(channel).value] <==> newConnection.None?)
                && (loop.retryTimers != old(loop.retryTimers) <==> connect && (soError || selfConnect))
                && state == if soError || selfConnect then Disconnected else Connected
    {
      hide NetInv, Starts;
      WriteMeans(View(), soError, selfConnect);
      newConnection := None;
      if state == Connecting {
        var sockfd := RemoveAndResetChannel();
        if soError {
          RetryLater(sockfd);
        } else if selfConnect {
          RetryLater(sockfd);
        } else {
          state := Connected;
          if connect {
            handed := handed + [sockfd];
            newConnection := Some(sockfd);
          } else {
            CloseFd(sockfd);
          }
        }
      }
    }

    /** LOG_FATAL ends the process before `retry`; what is proved also covers a logger that returns. */
    method HandleError()
      requires View().ChannelReady()
      modifies this, loop
      ensures View() == Connection.HandleError(old(View())) && state != Connecting
      ensures NetInv(old(View())) && (old(state) == Connecting ==> Starts(old(View())) == 0) ==> NetInv(View())
    {
      hide NetInv, Starts;
      ErrorMeans(View());
      if state == Connecting {
        var sockfd := RemoveAndResetChannel();
        RetryLater(sockfd);
      }
    }
  }

  class TcpClient {
    const loop: EventLoop
    const connector: Connector
    const name: string
    var retry: bool
    var connect: bool
    var nextConnId: nat
    var connection: Option<Conn>

    /** The connections established, removed, and gone through `connectDestroyed`, in order. */
    ghost var established: seq<Conn>
    ghost var removed: seq<Conn>
    ghost var destroyed: seq<Conn>

    ghost function View(): World
      reads this, connector, connector.loop
    {
      World(connector.View(), connect, retry, nextConnId, connection, established, removed, destroyed)
    }

    constructor (loop: EventLoop, name: string)
      requires loop.pendingFunctors == [] && loop.retryTimers == [] && loop.clock == 0
      ensures this.loop == loop == connector.loop && this.name == name && fresh(connector)
      ensures View() == INITIAL && Inv(View())
    {
      var c := new Connector(loop);
      this.loop, this.connector, this.name := loop, c, name;
      retry, connect, nextConnId, connection := false, true, 1, None;
      established, removed, destroyed := [], [], [];
      new;
      InitialInv();
    }

    /** The source checks no state here ("FIXME"): the contract says when that is harmless. */
    method Connect(inLoop: bool, savedErrno: Errno)
      requires loop == connector.loop
      modifies this, connector, loop
      ensures View() == Step(old(View()), ClientConnect(inLoop, savedErrno)) && connect && connector.connect
      ensures Inv(old(View())) ==>
                (Inv(View()) <==> || (inLoop && Classify(savedErrno) == GiveUp)
                                  || (Idle(old(View())) && (inLoop ==> RoomFor(old(View()).net, savedErrno))))
    {
      hide Inv, Idle, RoomFor, Classify, Connection.Start;
      if Inv(View()) {
        ConnectKeepsInvIff(View(), inLoop, savedErrno);
      }
      connect := true;
      connector.Start(inLoop, savedErrno);
      StartWants(old(View()).net, inLoop, savedErrno);
    }

    /** Also returns the connection that is told to shut down. */
    method Disconnect() returns (told: Option<Conn>)
      modifies this
      ensures View() == Step(old(View()), ClientDisconnect) && told == old(connection)
      ensures !connect && forall conn, e ::
                Enabled(View(), Closed(conn, e)) ==> Step(View(), Closed(conn, e)).net.sockets == View().net.sockets
      ensures Inv(old(View())) ==> Inv(View())
    {
      hide Inv;
      if Inv(View()) {
        StepKeeps(View(), ClientDisconnect);
      }
      connect := false;
      told := connection;
    }

    method Stop(inLoop: bool)
      requires loop == connector.loop && (inLoop ==> connector.View().ChannelReady())
      modifies this, connector, loop
      ensures View() == Step(old(View()), ClientStop(inLoop))
      ensures Stopped(View()) && (Inv(old(View())) ==> Inv(View()))
    {
      hide Inv, Connection.Stop;
      if Inv(View()) {
        StepKeeps(View(), ClientStop(inLoop));
      }
      StopIsStopped(View(), inLoop);
      connect := false;
      connector.Stop(inLoop);
    }

    method NewConnection(sockfd: nat, peer: Peer) returns (connName: string)
      modifies this
      ensures View() == Connection.NewConnection(old(View()), sockfd)
      ensures connName == ConnName(name, peer, old(nextConnId))
    {
      var buf := Take(":" + IpPort(peer) + "#" + Decimal(nextConnId), BUFFER_SIZE - 1);
      connName := name + buf;
      var conn := Conn(sockfd, nextConnId);
      nextConnId := nextConnId + 1;
      connection := Some(conn);
      established := established + [conn];
    }

    method RemoveConnection(conn: Conn, savedErrno: Errno)
      requires loop == connector.loop
      modifies this, connector, loop
      ensures View() == Connection.RemoveConnection(old(View()), conn, savedErrno) && connection.None?
      ensures if retry && connect then Ends(old(View()).net, connector.View(), old(loop.retryTimers), savedErrno)
              else connector.View() == QueueInLoop(old(View()).net, ConnectDestroyed(conn))
      ensures Inv(old(View())) && old(connection) == Some(conn) ==>
                (Inv(View()) <==> (retry && connect ==> RoomFor(old(View()).net, savedErrno)))
    {
      hide Inv, RoomFor, Connection.Restart;
      RestartEnds(QueueInLoop(View().net, ConnectDestroyed(conn)), savedErrno);
      if Inv(View()) && connection == Some(conn) {
        InvGivesConnection(View(), conn);
        ClosedKeepsInvIff(View(), conn, savedErrno);
      }
      connection := None;
      removed := removed + [conn];
      loop.QueueInLoop(ConnectDestroyed(conn));
      if retry && connect {
        connector.Restart(savedErrno);
      }
    }

    method OnWritable(soError: bool, selfConnect: bool, peer: Peer)
      requires loop == connector.loop && connector.View().ChannelReady()
      modifies this, connector, loop
      ensures View() == Connection.OnWritable(old(View()), soError, selfConnect)
      ensures Inv(old(View())) ==> Inv(View())
    {
      hide Inv, NetInv, Starts;
      if Inv(View()) {
        WritableKeeps(View(), soError, selfConnect);
      }
      var sockfd := connector.HandleWrite(soError, selfConnect);
      if sockfd.Some? {
        var _ := NewConnection(sockfd.value, peer);
      }
    }

    /** One functor of `doPendingFunctors`. */
    method RunPendingFunctor(savedErrno: Errno)
      requires loop == connector.loop && loop.pendingFunctors != []
      requires loop.pendingFunctors[0].StopInLoop? ==> connector.View().ChannelReady()
      modifies this, connector, loop
      ensures View() == RunFunctor(old(View()), savedErrno)
      ensures Inv(old(View())) ==> Inv(View())
    {
      hide Inv, NetInv, Starts, Ready, RoomFor, RunStartInLoop, RunStopInLoop;
      if Inv(View()) {
        FunctorKeeps(View(), savedErrno);
      }
      if loop.pendingFunctors[0].ConnectDestroyed? {
        var functor := loop.TakeFunctor();
        destroyed := destroyed + [functor.conn];
      } else {
        connector.RunPendingFunctor(savedErrno);
      }
    }

    method OnRetryTimer(i: nat, savedErrno: Errno)
      requires loop == connector.loop && i < |loop.retryTimers|
      modifies this, connector, loop
      ensures View() == FireTimer(old(View()), i, savedErrno)
      ensures if old(connector.connect)
              then Ends(old(View()).net, connector.View(),
                        old(loop.retryTimers)[..i] + old(loop.retryTimers)[i + 1..], savedErrno)
              else connector.View().sockets == old(View()).net.sockets
      ensures Inv(old(View())) && old(loop.retryTimers)[i] <= old(loop.clock) ==>
                (Inv(View()) <==> (old(connector.connect) ==> RoomFor(old(View()).net, savedErrno)))
    {
      hide Inv, NetInv, Starts, Ready, RoomFor, RunStartInLoop, Ends;
      TimerStarts(View(), i, savedErrno);
      if Inv(View()) && loop.retryTimers[i] <= loop.clock {
        TimerKeepsInvIff(View(), i, savedErrno);
      }
      loop.retryTimers := loop.retryTimers[..i] + loop.retryTimers[i + 1..];
      connector.DoStartInLoop(savedErrno);
    }

    /** One event. An event that cannot happen in this state is passed over. */
    method Handle(ev: Event, peer: Peer)
      requires loop == connector.loop && Inv(View())
      modifies this, connector, loop
      ensures View() == Step(old(View()), ev)
    {
      hide Inv, Connection.Start, Connection.Stop, RunFunctor, FireTimer, Connection.OnWritable, Connection.RemoveConnection;
      hide Connection.HandleError, NetInv, Starts, RoomFor, Idle, Classify;
      InvGivesChannel(View());
      match ev {
        case ClientConnect(inLoop, e) => Connect(inLoop, e);
        case ClientStop(inLoop) => Stop(inLoop);
        case ClientDisconnect => var _ := Disconnect();
        case EnableRetry => retry := true;
        case FunctorRuns(e) =>
          if loop.pendingFunctors != [] {
            RunPendingFunctor(e);
          }
        case TimerFires(i, e) =>
          if i < |loop.retryTimers| && loop.retryTimers[i] <= loop.clock {
            OnRetryTimer(i, e);
          }
        case Writable(error, self) => OnWritable(error, self, peer);
        case Errored => connector.HandleError();
        case Closed(conn, e) =>
          InvGivesConnection(View(), conn);
          if connection == Some(conn) {
            RemoveConnection(conn, e);
          }
        case TimePasses(ticks) => loop.clock := loop.clock + ticks;
      }
    }

    /** Any disciplined run of the loop: it is the run of module Connection, and keeps the invariant. */
    method HandleAll(evs: seq<Event>, peer: Peer)
      requires loop == connector.loop && Inv(View()) && DisciplinedRun(View(), evs)
      modifies this, connector, loop
      ensures View() == Run(old(View()), evs) && Inv(View())
    {
      hide Inv, Step, Disciplined;
      for i := 0 to |evs|
        invariant Inv(View()) && DisciplinedRun(View(), evs[i..]) && Run(View(), evs[i..]) == Run(old(View()), evs)
      {
        assert evs[i..][1..] == evs[i + 1..];
        StepKeeps(View(), evs[i]);
        Handle(evs[i], peer);
      }
    }
  }
}
