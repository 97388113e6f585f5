/**
  The connector and the client that drives it (Connector.cc, TcpClient.cc) as functions on their state:
  what each call, functor, timer and channel event does. Calls into the kernel and the poller are
  parameters.
 */
module Connection {
  import opened Common

  /** `errno` after `::connect`, as far as Connector.cc:143-174 tells the values apart. */
  datatype Errno =
    | SUCCESS | EINPROGRESS | EINTR | EISCONN
    | EAGAIN | EADDRINUSE | EADDRNOTAVAIL | ECONNREFUSED | ENETUNREACH
    | EACCES | EPERM | EAFNOSUPPORT | EALREADY | EBADF | EFAULT | ENOTSOCK
    | UNEXPECTED

  datatype Outcome = InProgress | TryAgain | GiveUp

  function Classify(e: Errno): Outcome {
    match e
    case SUCCESS | EINPROGRESS | EINTR | EISCONN => InProgress
    case EAGAIN | EADDRINUSE | EADDRNOTAVAIL | ECONNREFUSED | ENETUNREACH => TryAgain
    case _ => GiveUp
  }

  datatype State = Disconnected | Connecting | Connected

  /** A TcpConnection, by its socket and the number in its name. */
  datatype Conn = Conn(socket: nat, id: nat)

  /**
    Functors in the loop's queue, `pendingFunctors_`. The `resetChannel` of the source has no argument;
    `target` only records which socket's channel it was queued for.
   */
  datatype Functor = StartInLoop | StopInLoop | ResetChannel(target: nat) | ConnectDestroyed(conn: Conn)

  /** The targets of the queued resets, in order. */
  function Targets(fs: seq<Functor>): seq<nat> {
    if fs == [] then [] else (if fs[0].ResetChannel? then [fs[0].target] else []) + Targets(fs[1..])
  }

  const MAX_RETRY_DELAY_MS := 30 * 1000
  const INIT_RETRY_DELAY_MS := 500

  function Min(a: int, b: int): int { if a < b then a else b }

  /**
    The connector and its loop. Sockets are numbered in the order of their creation. `closed` and
    `handed` record every `::close` and every call of `newConnectionCallback_`, `unwatched` every
    channel taken out of the poller; `retries` counts the retry timers set so far and `firstAttempt`
    is the time of the first `::connect`.
   */
  datatype Net = Net(
    functors: seq<Functor>, retryTimers: seq<int>, clock: int,
    connect: bool, state: State, channel: Option<nat>, retryDelayMs: int,
    sockets: nat, closed: seq<nat>, handed: seq<nat>, unwatched: seq<nat>, retries: nat, firstAttempt: Option<int>)
  {
    /** The channel that `kConnecting` code dereferences is there. */
    predicate ChannelReady() { state.Connecting? ==> channel.Some? }
  }

  /** The client; `established`, `removed` and `destroyed` record the connections it went through. */
  datatype World = World(
    net: Net, connect: bool, retry: bool, nextConnId: nat, connection: Option<Conn>,
    established: seq<Conn>, removed: seq<Conn>, destroyed: seq<Conn>)

  const INITIAL_NET := Net([], [], 0, false, Disconnected, None, INIT_RETRY_DELAY_MS, 0, [], [], [], 0, None)
  const INITIAL := World(INITIAL_NET, true, false, 1, None, [], [], [])

  // ----- Connector -----

  function QueueInLoop(n: Net, f: Functor): Net {
    n.(functors := n.functors + [f])
  }

  function CloseSocket(n: Net, s: nat): Net {
    n.(closed := n.closed + [s])
  }

  function Retry(n: Net, s: nat): Net {
    var m := CloseSocket(n, s).(state := Disconnected);
    if !m.connect then m else
      m.(retryTimers := m.retryTimers + [m.clock + m.retryDelayMs],
         retryDelayMs := Min(m.retryDelayMs * 2, MAX_RETRY_DELAY_MS),
         retries := m.retries + 1)
  }

  function Connect(n: Net, e: Errno): Net {
    var s := n.sockets;
    var m := n.(sockets := s + 1, firstAttempt := if n.firstAttempt.None? then Some(n.clock) else n.firstAttempt);
    match Classify(e)
    case InProgress => m.(state := Connecting, channel := Some(s))
    case TryAgain => Retry(m, s)
    case GiveUp => CloseSocket(m, s)
  }

  function RunStartInLoop(n: Net, e: Errno): Net {
    if n.connect then Connect(n, e) else n
  }

  function Start(n: Net, inLoop: bool, e: Errno): Net {
    var m := n.(connect := true);
    if inLoop then RunStartInLoop(m, e) else QueueInLoop(m, StartInLoop)
  }

  /** `removeAndResetChannel`. */
  function RemoveChannel(n: Net): Net
    requires n.channel.Some?
  {
    QueueInLoop(n.(unwatched := n.unwatched + [n.channel.value]), ResetChannel(n.channel.value))
  }

  function RunStopInLoop(n: Net): Net
    requires n.ChannelReady()
  {
    if !n.state.Connecting? then n else Retry(RemoveChannel(n.(state := Disconnected)), n.channel.value)
  }

  function Stop(n: Net, inLoop: bool): Net
    requires inLoop ==> n.ChannelReady()
  {
    var m := n.(connect := false);
    if inLoop then RunStopInLoop(m) else QueueInLoop(m, StopInLoop)
  }

  function Restart(n: Net, e: Errno): Net {
    RunStartInLoop(n.(state := Disconnected, connect := true), e)
  }

  /** The channel is writable; `error` and `self` are what SO_ERROR and `isSelfConnect` say. */
  function HandleWrite(n: Net, error: bool, self: bool): Net
    requires n.ChannelReady()
  {
    if !n.state.Connecting? then n else
      var s := n.channel.value;
      var m := RemoveChannel(n);
      if error || self then Retry(m, s)
      else if m.connect then m.(state := Connected, handed := m.handed + [s])
      else CloseSocket(m.(state := Connected), s)
  }

  function HandleError(n: Net): Net
    requires n.ChannelReady()
  {
    if !n.state.Connecting? then n else Retry(RemoveChannel(n), n.channel.value)
  }

  // ----- TcpClient -----

  function NewConnection(w: World, s: nat): World {
    var conn := Conn(s, w.nextConnId);
    w.(nextConnId := w.nextConnId + 1, connection := Some(conn), established := w.established + [conn])
  }

  function RemoveConnection(w: World, conn: Conn, e: Errno): World {
    var v := w.(connection := None, removed := w.removed + [conn], net := QueueInLoop(w.net, ConnectDestroyed(conn)));
    if v.retry && v.connect then v.(net := Restart(v.net, e)) else v
  }

  function OnWritable(w: World, error: bool, self: bool): World
    requires w.net.ChannelReady()
  {
    var v := w.(net := HandleWrite(w.net, error, self));
    if |v.net.handed| > |w.net.handed| then NewConnection(v, w.net.channel.value) else v
  }

  /** The loop runs its oldest functor; `e` is the result of a `::connect` it makes. */
  function RunFunctor(w: World, e: Errno): World
    requires w.net.functors != [] && (w.net.functors[0].StopInLoop? ==> w.net.ChannelReady())
  {
    var n := w.net.(functors := w.net.functors[1..]);
    match w.net.functors[0]
    case StartInLoop => w.(net := RunStartInLoop(n, e))
    case StopInLoop => w.(net := RunStopInLoop(n))
    case ResetChannel(_) => w.(net := n.(channel := None))
    case ConnectDestroyed(conn) => w.(net := n, destroyed := w.destroyed + [conn])
  }

  /** The `i`-th retry timer fires. */
  function FireTimer(w: World, i: nat, e: Errno): World
    requires i < |w.net.retryTimers|
  {
    w.(net := RunStartInLoop(w.net.(retryTimers := w.net.retryTimers[..i] + w.net.retryTimers[i + 1..]), e))
  }

  // ----- Runs -----

  datatype Event =
    | ClientConnect(inLoop: bool, e: Errno)
    | ClientStop(inLoop: bool)
    | ClientDisconnect
    | EnableRetry
    | FunctorRuns(e: Errno)
    | TimerFires(i: nat, e: Errno)
    | Writable(error: bool, self: bool)
    | Errored
    | Closed(conn: Conn, e: Errno)
    | TimePasses(ticks: nat)

  /**
    What the loop can deliver. Timers do not fire early, and the close callback comes once per
    connection. Where the code would dereference a channel that is gone, nothing is modelled.
   */
  predicate Enabled(w: World, ev: Event) {
    match ev
    case ClientStop(inLoop) => inLoop ==> w.net.ChannelReady()
    case FunctorRuns(_) => w.net.functors != [] && (w.net.functors[0].StopInLoop? ==> w.net.ChannelReady())
    case TimerFires(i, _) => i < |w.net.retryTimers| && w.net.retryTimers[i] <= w.net.clock
    case Closed(conn, _) => conn in w.established && conn !in w.removed
    case Writable(_, _) => w.net.ChannelReady()
    case Errored => w.net.ChannelReady()
    case _ => true
  }

  function Step(w: World, ev: Event): World {
    if !Enabled(w, ev) then w else
      match ev
      case ClientConnect(inLoop, e) => w.(connect := true, net := Start(w.net, inLoop, e))
      case ClientStop(inLoop) => w.(connect := false, net := Stop(w.net, inLoop))
      case ClientDisconnect => w.(connect := false)
      case EnableRetry => w.(retry := true)
      case FunctorRuns(e) => RunFunctor(w, e)
      case TimerFires(i, e) => FireTimer(w, i, e)
      case Writable(error, self) => OnWritable(w, error, self)
      case Errored => w.(net := HandleError(w.net))
      case Closed(conn, e) => RemoveConnection(w, conn, e)
      case TimePasses(ticks) => w.(net := w.net.(clock := w.net.clock + ticks))
  }

  function Run(w: World, evs: seq<Event>): World
    decreases |evs|
  {
    if evs == [] then w else Run(Step(w, evs[0]), evs[1..])
  }
}
