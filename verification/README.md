# mymuduo: timers and client connections

A Dafny model of the parts of mymuduo, a small event-loop network library in C++, where several
pieces of state must stay consistent across callbacks: the timer queue, the connector with its retry
timers, and the client that keeps one connection alive. Written for Dafny 4.11
(`dafny verify dfyconfig.toml`).

**Timer queue.** `TimerQueue` keeps heap-allocated timers in two redundant indices, a one-shot alarm and a
set of cancellations deferred while callbacks run, and deletes timers by hand. `TimerPlan` says what callers
may rely on, without addresses: a map from a timer's sequence number to its due time and interval.
`TimerQueueModel.TimerQueue` is the queue as an object, step by step as in the source, and every method is
proved to change the plan as promised, for every script of adds and cancels that the callbacks may
run, for every address `operator new` may return (including one just freed), and with calls from other
threads arriving at any point. A look-up of an address that is not allocated does not verify, so no
method uses a timer after it was deleted. `TimerRuns` proves what follows for whole runs, and `TimerCalls`
follows a call to the callbacks it leads to: when an added timer runs, how it repeats, and what a `cancel`
from another thread brings about.

**Connector and client.** `Connection` gives each operation of `Connector` and `TcpClient` as a function on
their state; `TcpClientModel` has the objects, whose methods are tied to those functions and say what they
keep. Results of system calls are arbitrary inputs. `ConnectionInvariant` states the discipline the
connector relies on without checking it (`connect` only while nothing is under way, and in the loop thread
only when no `resetChannel` is queued; an attempt started by a timer or a close only after that reset), and
an invariant that every disciplined step keeps. `ConnectionRuns` draws the consequences for whole runs. For
every state with the invariant it says exactly which calls of `connect`, for which errno, keep each part
of it, and for every run at all it says exactly which sockets are leaked. `ConnectionOutcomes` says what the
events bring about: which make an attempt and how it ends by `errno`, which set a retry timer and for when,
which closes reconnect, and that a wanted connection is always under way unless the code lets go of it.

**Names.** `ConnectionNames` treats the 32-byte buffer in which connection names are formatted, and says
exactly when two connections get one name.

## Assumptions

- Time is a number of ticks passed to each event. `Timestamp::now()` counts seconds (Timestamp.cc:13-16)
  while TimerQueue.cc:25-35 and `addTime` (used in Timer.cc:6-16) take the same number for microseconds, so nothing
  is claimed about wall-clock time. The clock is positive when a batch starts.
- An interval is a real number and is converted to ticks by truncation, as `addTime` does.
- Addresses are natural numbers with the address UINTPTR_MAX above all of them; no object lives there
  or at address 0.
- `timerfd_settime` succeeds. A read of the timerfd may or may not take the alarm.
- The loop owns a timer queue. (`EventLoop` never creates the one that EventLoop.cc:191-194 dereferences.)
- Functions that run in the loop thread are atomic steps; `runInLoop` in that thread runs at once, and
  queued functors run in order (EventLoop.cc:101-128, 167-183).
- Disciplined runs assume that a retry timer, or the close callback of a connection, that starts an attempt
  comes in a later turn of the loop than the `resetChannel` queued before it (EventLoop.cc:67-83).
  `ConnectionRuns.TimerKeepsInvIff` and `ConnectionRuns.ClosedKeepsInvIff` say exactly when this is needed.
- `resetChannel` has no argument. In the model it carries the socket whose channel it was queued for, as
  bookkeeping only: what runs is the same.
- Events that would dereference a channel that is gone are not modelled: a write or error event, or
  `stopInLoop`, in state `kConnecting` with no channel.
- `LOG_FATAL` ends the process (Logger.h:29-37), so the `retry` after it in `handleError` is dead code.
  The model lets it run; this only adds runs.

## Findings

- A cancellation made in the loop thread is lost when it overtakes the `addTimer` of another thread
  (`TimerRuns.CancelCanBeOvertaken`); apart from that it always stops the timer (`TimerRuns.CancelStops`).
- A repeating timer with an interval below one microsecond runs again in every batch at the same time
  (`TimerRuns.TinyIntervalNeverRests`).
- `connect` during an attempt leaks the first socket for ever, also when the second attempt is refused; only
  an errno that gives up, or a call from another thread, does no harm at that moment
  (`ConnectionRuns.OverlapLeaksForEver`, `ConnectionRuns.ConnectKeepsSocketsIff`).
- `stop` followed by `connect` in one turn of the loop loses the new channel, and its socket is leaked
  (`ConnectionRuns.StopThenConnectLosesTheChannel`). The same `connect` from another thread is safe
  (`ConnectionRuns.StopThenPostedConnectIsSafe`).
- The client lets go of a wanted connection after an errno that gives up, also with `enableRetry`: nothing
  is under way any more (`ConnectionOutcomes.LetGoIsIdle`).
- Names of one client can repeat: to one peer as soon as the id has more digits than there is room for
  (`ConnectionNames.NameRepeatsIff`), at the earliest with the 100 000 000th connection
  (`ConnectionNames.EveryLaterIdCollides`).

## Model

| member | source | states |
|---|---|---|
| `Timers.HowMuchTimeFromNow` | TimerQueue.cc:23-37 | the relative timespec is normalised, never zero, and is the time left in whole microseconds, at least 100 |
| `Timers.Ticks` | Timer.cc:6-16 | an interval is worth its whole microseconds, truncated toward zero |
| `Timers.AddTime` | Timer.cc:6-16 | the next expiration lies the whole microseconds of the interval after the given time |
| `OrderedIndex.LowerBoundSplits` | TimerQueue.cc:155 | in a sorted index exactly the entries before the lower bound are below the key |
| `OrderedIndex.InsertAdds` | TimerQueue.cc:203-212 | insertion keeps the order, adds exactly one new entry, and the first time becomes the smaller one |
| `OrderedIndex.EraseRemoves` | TimerQueue.cc:122 | erasure keeps the order, removes exactly the given entry, and the first time does not decrease |
| `OrderedIndex.ExpiredIsExact` | TimerQueue.cc:151-157 | the split takes all and only the entries due at `now`, for every index, if and only if no timer expiring now lives at UINTPTR_MAX |
| `OrderedIndex.SplitKeepsOrder` | TimerQueue.cc:151-157 | both halves stay sorted and disjoint, and the batch comes out by non-decreasing time |
| `TimerInvariant.TakenIsBatch` | TimerQueue.cc:151-166 | what `getExpired` returns lists exactly the timers that the plan has due, each once, by due time |
| `TimerInvariant.SameSize` | TimerQueue.h:51-53 | the two indices always have the same size |
| `TimerInvariant.InsertedIndices` | TimerQueue.cc:199-219 | inserting a timer keeps the indices in agreement and adds one new element to each |
| `TimerInvariant.RemovedCore` | TimerQueue.cc:116-125 | a cancellation that finds its timer erases one element, frees a timer never freed before, and keeps the whole invariant |
| `TimerInvariant.CancelFinds` | TimerQueue.cc:118-120 | an id finds a timer if and only if it was handed out for a timer that is still scheduled |
| `TimerInvariant.StaleIdIsHarmless` | TimerQueue.cc:116-130 | an id that is stale or made up finds nothing, and changes for no timer whether it starts again, even when its address is in use |
| `TimerInvariant.ExactlyOneOwner` | TimerQueue.cc:78-186 | every timer ever created is in exactly one place: deleted, scheduled, in a queued functor, or in the running batch |
| `TimerInvariant.WakesInTime` | TimerQueue.cc:106-114 | outside a batch the alarm is set at or before the due time of every scheduled timer |
| `TimerInvariant.AlarmIsEarliest` | TimerQueue.cc:168-197 | an exact alarm is set for the least due time of a scheduled timer |
| `TimerInvariant.RenewedMeans` | TimerQueue.cc:172-186 | `reset` puts back exactly the timers of the batch with a positive interval that no callback cancelled, due the interval after `now` |
| `TimerInvariant.BatchFinished` | TimerQueue.cc:172-186 | after each turn of the loop in `reset` the rest of the batch is still allocated with its tasks, and no alarm before `now` is missing |
| `TimerInvariant.PlanIsWellFormed` | Timer.h:13-19 | sequence numbers are never shared by two timers of a plan |
| `TimerQueueModel.TimerQueue.AddTimer` | TimerQueue.cc:90-98 | adds a task under a new sequence number, or queues it when called in another thread, and returns its id |
| `TimerQueueModel.TimerQueue.AddTimerInLoop` | TimerQueue.cc:106-114 | the timer goes to both indices, the alarm still wakes in time, and an exact alarm stays exact |
| `TimerQueueModel.TimerQueue.CancelInLoop` | TimerQueue.cc:116-130 | for any id, stale or forged: removes and frees exactly the timer it was handed out for, or else at most defers |
| `TimerQueueModel.TimerQueue.CancelTimer` | TimerQueue.cc:100-104 | cancels in the loop thread; from another thread it queues the revocation of that very timer behind the other functors, and changes no timer |
| `TimerQueueModel.TimerQueue.HandleRead` | TimerQueue.cc:132-149 | runs exactly the timers due before any callback ran, by due time, and leaves the plan that the script of callbacks leads to, with an exact alarm; with nothing due nothing changes |
| `TimerQueueModel.TimerQueue.GetExpired` | TimerQueue.cc:151-166 | takes exactly the due entries out of both indices |
| `TimerQueueModel.TimerQueue.Reset` | TimerQueue.cc:168-197 | of the batch exactly the timers with a positive interval that no callback cancelled start again at `now` plus interval, the others are freed, and the alarm is set for the earliest time |
| `TimerQueueModel.TimerQueue.InsertTimer` | TimerQueue.cc:199-219 | one new element in each index; says exactly when the earliest time changed |
| `TimerQueueModel.TimerQueue.Delete` | TimerQueue.cc:181-185 | the timer is allocated, owned, and was never deleted before |
| `TimerQueueModel.TimerQueue.Destroy` | TimerQueue.cc:78-88 | frees every scheduled timer once and leaves only those of queued functors |
| `TimerQueueModel.TimerQueue.RunQueued` | TimerQueue.cc:95-96 | running a queued functor delivers the oldest message of the plan |
| `TimerQueueModel.TimerQueue.Run` | TimerQueue.cc:65-219 | every run of the queue is a run of the plan, and every state between two events satisfies the whole invariant |
| `TimerRuns.BatchExists` | TimerQueue.cc:151-166 | at every moment the due timers can be listed as a batch, so every run can go on |
| `TimerRuns.AliveIffCanRun` | TimerQueue.cc:65-219 | for a timer already created, some run from the plan calls its callback if and only if it is scheduled or its add is queued |
| `TimerRuns.CancelStops` | TimerQueue.cc:116-130 | after a cancellation in the loop some run still calls the timer if and only if its own `addTimer` is still queued |
| `TimerRuns.RevokeStops` | TimerQueue.cc:100-104 | the same for a cancellation from another thread, when its functor runs |
| `TimerRuns.CancelInBatchStops` | TimerQueue.cc:126-149 | the same for a cancellation by a callback, whichever timer it is, also of a timer in the batch or its own |
| `TimerRuns.CancelledForEver` | TimerQueue.cc:116-186 | once cancelled, a timer runs at most once more, and only in the batch in which it was cancelled |
| `TimerRuns.CancelCanBeOvertaken` | TimerQueue.cc:90-130 | a run in which a cancellation overtakes the add of its timer, which then runs |
| `TimerRuns.NeverEarlyNeverTwiceInABatch` | TimerQueue.cc:132-149 | no timer runs before its due time or twice in a batch |
| `TimerRuns.RunsAgainOnlyAfterInterval` | Timer.cc:6-16 | a timer that runs twice has a positive interval; consecutive runs are at least the interval apart |
| `TimerRuns.RunsInDueOrder` | TimerQueue.cc:132-149 | within a batch callbacks run by due time |
| `TimerRuns.RunsWhenDue` | TimerQueue.cc:132-197 | a timer that nothing cancels has run by the first batch that reaches its due time |
| `TimerRuns.StepSpares` | TimerQueue.cc:168-186 | an event that does not cancel a timer keeps it, moves it on if it ran and its interval is positive, ends it if it ran and the interval is not |
| `TimerRuns.DeadStaysDead` | TimerQueue.cc:168-186 | a timer that can no longer run never runs again |
| `TimerRuns.SecondBatch` | TimerQueue.cc:132-197 | a second batch at the same time runs exactly the repeating timers worth no tick and the due timers added by callbacks |
| `TimerRuns.SecondBatchIsIdle` | TimerQueue.cc:132-197 | without those it runs nothing and changes nothing |
| `TimerRuns.TinyIntervalNeverRests` | Timer.cc:6-16 | an interval below one microsecond leaves the plan unchanged by a batch that runs it |
| `TimerCalls.IssuedInOrder` | TimerQueue.cc:132-149 | callbacks run one after the other, each issuing exactly its own calls in their order |
| `TimerCalls.CallbackCancels` | TimerQueue.cc:126-149 | a timer of the plan that a callback of the batch cancels is not alive after it |
| `TimerCalls.PostedCancelStops` | TimerQueue.cc:100-130 | a `cancel` from another thread, or posted by a callback: once the functors in the queue then have run, the timer is gone for ever, also when it was still to be added |
| `TimerCalls.PostCancelStops` | TimerQueue.cc:100-104 | the posted call changes no timer, and works once the functors queued before it and its own have run |
| `TimerCalls.RevokeWasPosted` | TimerQueue.cc:100-104 | a functor cancels only a timer that some caller asked to cancel when it existed |
| `TimerCalls.UncancelledRuns` | TimerQueue.cc:90-197 | a scheduled timer that nobody asks to cancel runs by the first batch that reaches its due time |
| `TimerCalls.AddedRunsOnTime` | TimerQueue.cc:90-114 | an added timer first runs with the time and interval asked for, and not before that time |
| `TimerCalls.AddedRuns` | TimerQueue.cc:90-149 | added in the loop thread and not cancelled, it runs by the first batch that reaches that time |
| `TimerCalls.PostedAddRuns` | TimerQueue.cc:90-149 | added in another thread, the same once the functors queued before it and its own have run |
| `TimerCalls.OneShotRunsOnce` | Timer.h:13-19 | a timer whose interval is not positive runs at most once in any run |
| `TimerCalls.RepeatsAfterInterval` | TimerQueue.cc:168-186 | a timer with a positive interval that ran and that nobody cancels runs again by the first batch at least the interval later |
| `ConnectionInvariant.DelayIsCappedPower` | Connector.cc:286 | the delay after n doublings is min(500 * 2^n, 30000) ms, and the doubling stays within 60000 |
| `ConnectionInvariant.TotalDelayFromSix` | Connector.cc:286 | the first n delays add up to 31500 + 30000 * (n - 6) ms from n = 6 on |
| `ConnectionInvariant.RetryBacksOff` | Connector.cc:273-292 | a retry sets one timer for the delay of its number if a connection is wanted, none otherwise, and keeps the law of the delays |
| `ConnectionInvariant.RemovalIsSafe` | Connector.cc:199-210 | removing the channel of the running attempt leaves exactly one queued reset, that channel's own, in front of every start |
| `ConnectionInvariant.AbandonKeeps` | Connector.cc:199-210 | giving up an attempt closes its socket, keeps sockets and channel accounted for, and leaves a start ahead if and only if one is wanted |
| `ConnectionInvariant.ResetHitsItsChannel` | Connector.cc:212-215 | the reset that runs next destroys the channel it was queued for, and keeps the invariant |
| `ConnectionInvariant.AttemptChannelIff` | Connector.cc:184-197 | an attempt keeps channels and resets apart if and only if it does not replace a channel whose reset is queued, nor end a running attempt by its own failure |
| `ConnectionInvariant.AttemptKeeps` | Connector.cc:135-175 | an attempt made while nothing is under way keeps the invariant for every errno; a queued reset matters only if it gets under way |
| `ConnectionInvariant.WritableKeeps` | Connector.cc:216-252 | the write event keeps the invariant for every socket error, self-connect, and stop |
| `ConnectionInvariant.ClosedKeeps` | TcpClient.cc:166-180 | removing a connection, and reconnecting, keeps the invariant |
| `ConnectionInvariant.StepKeeps` | Connector.cc:97-292 | every disciplined step keeps the whole invariant |
| `ConnectionInvariant.RunKeeps` | Connector.cc:97-292 | so does every disciplined run |
| `ConnectionRuns.SocketsHaveOnePlace` | Connector.cc:125-292 | at every moment each socket was closed once, or handed off once, or is being connected |
| `ConnectionRuns.OneAttemptAtATime` | Connector.cc:97-210 | at most one start ahead, running attempt or live connection; a queued reset is its own channel's and precedes every queued start |
| `ConnectionRuns.ResetsHitTheirChannel` | Connector.cc:199-215 | in a disciplined run the next reset destroys the channel it was queued for, after that attempt has ended |
| `ConnectionRuns.ChannelsAreRemovedOnce` | Connector.cc:199-210 | each channel is taken out of the poller at most once, and never while its attempt runs |
| `ConnectionOutcomes.AttemptOutcome` | Connector.cc:105-182 | in every state exactly the starts, retry timers and reconnections create a socket, one each; by its `errno` it is watched, or closed with one new retry timer, or only closed |
| `ConnectionOutcomes.StepDelayed` | Connector.cc:216-292 | in every state exactly the failures of a wanted attempt set a retry timer, one each, and double the delay up to the cap |
| `ConnectionOutcomes.BackoffInAnyRun` | Connector.cc:273-292 | in every run each retry timer is due min(500 * 2^m, 30000) ms after it is set, m being the number of timers set before, counted by the timers |
| `ConnectionOutcomes.RetriesAreNear` | Connector.cc:282-286 | in every run a pending retry is at most 30 seconds away |
| `ConnectionOutcomes.RetriesComeDue` | Connector.cc:282-284 | so after 30 seconds it can fire, and it then makes an attempt if and only if a connection is still wanted |
| `ConnectionOutcomes.RetriesKeepTheirDistance` | Connector.cc:273-287 | when a retry timer fires, the delays of all timers set so far have passed since the first attempt |
| `ConnectionOutcomes.DisconnectPreventsReconnect` | TcpClient.cc:118-129 | after `disconnect` and before the next `connect` a close starts nothing: it only queues `connectDestroyed` |
| `ConnectionOutcomes.CloseReconnects` | TcpClient.cc:166-180 | after `enableRetry` and `connect`, with no `stop` or `disconnect` since, a close attempts again |
| `ConnectionOutcomes.HandshakeEstablishes` | Connector.cc:239-250 | a handshake that succeeds puts the next connection on that socket into the slot, or closes the socket when none is wanted any more |
| `ConnectionOutcomes.ReconnectionRun` | TcpClient.cc:166-180 | a run that connects, is closed, and is connecting again |
| `ConnectionOutcomes.StepUnderWay` | Connector.cc:97-292 | a disciplined event leaves a wanted connection under way, in exactly one form, unless it lets go |
| `ConnectionOutcomes.WantedIsUnderWay` | Connector.cc:97-292 | so does every run that never lets go, whatever fails and however often |
| `ConnectionOutcomes.ClientNeverIdles` | Connector.cc:97-292 | the same for every such run from the start |
| `ConnectionOutcomes.LetGoIsIdle` | Connector.cc:160-174 | an errno that gives up, or a close without reconnection, leaves the client idle |
| `ConnectionOutcomes.LiveStaysConnected` | Connector.cc:241 | `state_` is `kConnected` as long as a connection is established |
| `ConnectionRuns.SlotIsTheLastConnection` | TcpClient.cc:137-180 | `connection_` is set exactly while the last established connection is not removed; ids are 1, 2, ...; each removed one is destroyed once, in order |
| `ConnectionRuns.SecondEventIsIgnored` | Connector.cc:216-271 | of a write and an error event only the first has an effect |
| `ConnectionRuns.StopIsFinal` | TcpClient.cc:131-135 | after `stop` and before the next `connect` no run creates a socket or a connection |
| `ConnectionRuns.StoppedHoldsNothing` | Connector.cc:117-133 | once the queue is drained after `stop`, the connector holds no open socket and no channel |
| `ConnectionRuns.ConnectKeepsSocketsIff` | Connector.cc:97-175 | `connect` keeps the account of the sockets if and only if it does not make, in the loop thread, an attempt that is not given up while another runs |
| `ConnectionRuns.ConnectKeepsChannelIff` | Connector.cc:97-197 | `connect` keeps channels and resets apart, exactly unless it gets under way before a queued reset or fails during an attempt |
| `ConnectionRuns.ConnectIsSingleIff` | Connector.cc:97-115 | exactly when `connect` leaves at most one start, attempt or connection |
| `ConnectionRuns.ConnectKeepsInvIff` | Connector.cc:97-175 | exactly when `connect` keeps the whole invariant, for every errno and thread |
| `ConnectionRuns.DisciplineIsExact` | TcpClient.cc:109-116 | `connect` keeps the invariant for every errno if and only if the discipline admits it |
| `ConnectionRuns.TimerKeepsInvIff` | Connector.cc:273-287 | a retry timer keeps the invariant if and only if its attempt does not get under way before a queued reset |
| `ConnectionRuns.ClosedKeepsInvIff` | TcpClient.cc:166-180 | the same for the attempt of a restart after a close |
| `ConnectionRuns.LeakStep` | Connector.cc:97-292 | in every state and for every event a socket leaks if and only if its running attempt is forgotten: by another attempt, a reset, or a restart |
| `ConnectionRuns.LeakedIffForgotten` | Connector.cc:97-292 | over every run, disciplined or not, a socket is leaked at the end if and only if its attempt was forgotten on the way; no leak is ever repaired |
| `ConnectionRuns.OverlapLeaksForEver` | Connector.cc:105-197 | `connect` during an attempt leaks its socket for ever if and only if it attempts at once and is not given up |
| `ConnectionRuns.StopThenConnectLosesTheChannel` | Connector.cc:199-215 | the run in which a queued reset destroys the channel of a newer attempt, whose socket is then leaked in every continuation |
| `ConnectionRuns.StopThenPostedConnectIsSafe` | Connector.cc:97-103 | the same calls with `connect` from another thread: admitted behind the queued reset, and its attempt runs |
| `TcpClientModel.Connector.SwitchOnErrno` | Connector.cc:143-174 | exactly four errno values wait for the handshake, exactly five retry, all others give up |
| `TcpClientModel.Connector.RetryLater` | Connector.cc:273-292 | while a connection is wanted it sets exactly one timer, for the current delay, and doubles the delay up to the cap; otherwise none |
| `TcpClientModel.Connector.ConnectSocket` | Connector.cc:135-175 | the new socket ends as its `errno` says; keeps the invariant when nothing is under way, and loses a socket exactly when it overlaps a running attempt and is not given up |
| `TcpClientModel.Connector.DoStartInLoop` | Connector.cc:105-115 | makes an attempt if and only if a connection is wanted; from an idle connector keeps the invariant and leaves at most one start or attempt |
| `TcpClientModel.Connector.Start` | Connector.cc:97-103 | the same for a start at once or by a functor; behind a queued reset the functor is always safe |
| `TcpClientModel.Connector.DoStopInLoop` | Connector.cc:125-133 | no attempt runs afterwards, and the invariant is kept: the socket closed once, its reset queued |
| `TcpClientModel.Connector.Stop` | Connector.cc:117-123 | no connection is wanted afterwards, in the loop no attempt runs, and the invariant is kept: a running attempt has its `stopInLoop` ahead |
| `TcpClientModel.Connector.Restart` | Connector.cc:177-182 | from an idle connector in any state: keeps the invariant and leaves at most one start or attempt |
| `TcpClientModel.Connector.HandleWrite` | Connector.cc:216-252 | ends the attempt in exactly one of three ways, handed off, closed, or closed with a retry ahead, says when which and in which state, and keeps the invariant |
| `TcpClientModel.Connector.HandleError` | Connector.cc:254-271 | no attempt runs afterwards, and the invariant is kept |
| `TcpClientModel.TcpClient.Connect` | TcpClient.cc:109-116 | keeps the invariant if and only if nothing is under way and no queued reset is in the way, or the attempt is given up |
| `TcpClientModel.TcpClient.Disconnect` | TcpClient.cc:118-129 | no close reconnects afterwards, the invariant is kept, and the connection in the slot is told to shut down |
| `TcpClientModel.TcpClient.Stop` | TcpClient.cc:131-135 | establishes the stopped state that no later event but `connect` leaves, and keeps the invariant |
| `TcpClientModel.TcpClient.NewConnection` | TcpClient.cc:137-164 | fills the slot with a connection of the next id and the name formatted for it |
| `TcpClientModel.TcpClient.RemoveConnection` | TcpClient.cc:166-180 | empties the slot, and attempts again if and only if both flags ask for it; for the live connection keeps the invariant if and only if that does not get under way before a queued reset |
| `TcpClientModel.TcpClient.RunPendingFunctor` | Connector.cc:97-133 | every functor, run in order, keeps the invariant |
| `TcpClientModel.TcpClient.OnRetryTimer` | Connector.cc:282-284 | a retry timer makes an attempt if and only if a connection is wanted; keeps the invariant if and only if that does not get under way before a queued reset |
| `TcpClientModel.TcpClient.HandleAll` | TcpClient.cc:109-180 | any disciplined sequence of events leads the objects to the state of the functional run, and keeps the invariant |
| `ConnectionNames.SuffixParts` | TcpClient.cc:140-141 | the buffer keeps the whole peer text and at least eight digits of the id |
| `ConnectionNames.DecimalReads` | TcpClient.cc:141 | a printed number reads back as itself, in digits without leading zeros |
| `ConnectionNames.IpPortReads` | InetAddress.cc:21-31 | the text of a peer reads back as its four bytes and its port, in their order |
| `ConnectionNames.PeerFits` | InetAddress.cc:21-31 | an IPv4 peer's text has at most 21 characters and no '#' |
| `ConnectionNames.NamesEqualIff` | TcpClient.cc:139-143 | two names are equal if and only if the peers are equal and the ids agree on the digits there is room for |
| `ConnectionNames.NamesCollideIff` | TcpClient.cc:139-143 | two ids can lead to one name, for some peers, if and only if their first eight digits agree |
| `ConnectionNames.NamesAreDistinct` | TcpClient.cc:139-143 | below 10^8 different ids give different names for all peers |
| `ConnectionNames.NameRepeatsIff` | TcpClient.cc:139-143 | a connection to a peer repeats the name of an earlier one to that peer if and only if its id has more digits than there is room for |
| `ConnectionNames.EveryLaterIdCollides` | TcpClient.cc:139-143 | from 10^8 on every connection to a peer with the longest text repeats the name of an earlier one |
| `ConnectionNames.RunNamesAreDistinct` | TcpClient.cc:139-143 | in every run the connections with ids below 10^8 have different names |

## Left out

- System calls, address casts and `isSelfConnect` (Connector.cc:36-80): their results are inputs.
- Failure of `socket`, `timerfd_create` or `operator new`: the first two end the process, and memory
  exhaustion is not modelled.
- The sequence counter is shared by all loops of a process; one queue is modelled, so its numbers are
  consecutive.
- Reuse of descriptor numbers by the kernel: sockets are told apart by order of creation.
- `int` overflow of the connection id and of sequence numbers.
- The connector's retry timers are kept as due times of the loop rather than as one-shot timers of the
  modelled timer queue.
- Data races on `connect_` and `retry_` inside a step, the destructor of TcpClient (TcpClient.cc:80-107),
  and `TcpConnection` itself: only its establishment, close callback and `connectDestroyed` appear.
- Channel, Poller, Buffer, Socket, Acceptor, TcpServer and the thread classes.
