# oxiduct: verified model of the relay's state machines

oxiduct relays TCP connections and UDP datagrams and is built to clean up after dead peers. This
project models the concurrent state machines that do so, together with the admission limiter, the
PROXY protocol header and the metrics request reader, and proves what they keep over every
interleaving and every run. `dafny verify dfyconfig.toml` checks all of it.

## How the pieces fit

| file | content |
|---|---|
| `Machine.dfy` | `u32`, `u64`, saturating arithmetic, bytes, addresses |
| `Limits.dfy` | the admission limiter: its two critical sections, their refinement to a multiset of live guards, whole histories, and the in-place class `ConnLimits` |
| `Slots.dfy` | which task owns which limiter slot |
| `ProxyProtocol.dfy` | the version 2 header encoder and a receiver written from section 2.2 of "The PROXY protocol, Versions 1 & 2" |
| `RequestLine.dfy` | the metrics reader: lossy UTF-8, first line, `GET /metrics`, and the read loop over a fixed buffer |
| `Copy.dfy` | `copy_dir`: atomic actions of one direction, and the loop over a byte buffer with partial writes |
| `Watchdog.dfy` | the watchdog's deadline checks and its loop |
| `Relay.dfy`, `RelayWatch.dfy`, `RelayTiming.dfy` | both directions and the watchdog, interleaved; the watchdog in a run is the loop; timing |
| `Connection.dfy` | one accepted connection: connect, header, relay, and the bytes the upstream socket is given |
| `TcpServe.dfy`, `TcpProxy.dfy` | the accept loop's books: counters, gauge and limiter; the whole proxy with a `Connection` in every task |
| `UdpTable.dfy`, `UdpPass.dfy`, `UdpShared.dfy` | the UDP proxy's shared state: critical sections as functions, the eviction pass, and the in-place class `SharedTable` with its loops |
| `UdpProxy.dfy`, `UdpInvariants.dfy`, `UdpTheorems.dfy` | listener, set-up tasks, cleanup task and relay tasks around that state, what every step keeps, and what follows for runs |
| `UdpDrain.dfy`, `UdpStops.dfy` | when the drain test may be trusted; the end of the cleanup task |
| `UdpForce.dfy`, `UdpAfterForce.dfy` | the force arm, and the books after it |
| `UdpHoused.dfy` | which sessions run outside the map |
| `UdpTiming.dfy`, `UdpEviction.dfy` | the cleanup task's sleep; the eviction pass |
| `UdpWitness.dfy` | runs from the start into the gaps of the listener and of the drain test |
| `Datagrams.dfy`, `UdpFlow.dfy` | the bounded queue and the upstream relay task of one UDP session; the way of every datagram from the listener through set-up tasks and queues, on top of `UdpProxy` |

Concurrent parts are step systems: `Can` says which event is possible in a state, `Do` what it
does, and a run is any sequence of possible events (`Run`). Theorems about reachable states
quantify over all runs from the initial state. Loops and objects that the source updates in place
are methods and classes, proved against the functions the step systems are made of; connecting
lemmas (`Copy.CopyDir`, `RelayWatch.WatchdogIsTheLoop`, `UdpEviction.RetainIsARun`,
`Datagrams.TurnsAreARun`) show that the loops are runs of the step systems. `TcpProxy` and `UdpFlow`
put the parts together again: connections into the accept loop, datagrams into the UDP tasks.

## Assumptions

* A region of code under a lock is one step, and so is an atomic operation. The two loops over
  the UDP session map (`retain` and the force arm) take one step per session, with the map locked
  in between, so relay tasks can act during them.
* `last_activity.store(now_ms())` is one step, the clock never goes back and stays below
  `u64::MAX`.
* A cancellation token is a flag that is never reset, `Notify` stores one permit, a channel is a
  bounded queue, `select!` picks any ready branch (a `biased` one may still lose a race with an
  event that arrives a moment later).
* No task panics. Fewer than 2^32 - 1 guards of one limiter are live, which the two `+= 1` in
  `try_acquire` need when a cap is 0.
* Results of reads, writes, connects and sends are arbitrary; `writer.shutdown()` returns.
* Only `NeverLate`, `IdealGoesOn` and `EvictedOnTime` assume ideal timers, through the predicates
  `OnTime` and `IdealRun`: no time passes while the watchdog (the cleanup task) can run. In the
  UDP model, computing the wait and starting to sleep is one instant.

## Where the code and its comments disagree

* `src/limits.rs:172-173` promises `reached_90pct` up to `u32::MAX / 10`; it is exact for every
  pair of 32-bit values (`Limits.Reached90IsExact`).
* `src/proxy/udp.rs:333-337` says an insert never finds a session for its source. The lookup
  (lines 234-255) and the mark (lines 272-282) are two critical sections, and the previous set-up
  task can insert and clear its mark between them. An insert replaces a session only if that
  happened (`UdpTheorems.ReplacesOnlyThroughGap`); when it has happened and the set-up goes well,
  it does (`GapReplaces`); were the two sections one step, it never would (`FusedNeverReplaces`).
  Every configuration can get into the gap (`UdpWitness.GapIsReached`), and a session is replaced
  in some run exactly if no cap is 1 (`UdpWitness.ReplacesIffNoCapIsOne`).
* The drain test (lines 209-210) reads the map and then `pending`. If some set-up task can still
  insert at the first read, the listener can exit as drained and leave a session behind
  (`UdpDrain.DrainLeaks`); if none can, the test is sound (`DrainIsSound`), and reading both
  together would make it sound always (`OneStepTestSuffices`). In every configuration there is a
  run to that first read (`UdpWitness.DrainGapIsReached`) and one on to such an exit
  (`UdpWitness.DrainLeakIsReached`).
* The force arm (lines 190-203) counts every session as closed without emptying the map. Any of
  them can be counted again, as an eviction, exactly if the cleanup task has not stopped when the
  arm is through, whether it sleeps or not (`UdpAfterForce.ForcedSessionCountedTwice`); the labels
  are too high by exactly the counted sessions that have left the map (`ForceBooks`). The gauge,
  set to 0 by the arm, shows another value later exactly in case some set-up task is past its
  check of the force token by then (`GaugeStaysZero`); such a session is never counted as
  "shutdown".
* The watchdog's `None` arm (`src/proxy/tcp.rs:465`) cannot be reached unless a copy task panics
  (`Relay.ChannelNeverCloses`), so only the two completion messages can wake it early
  (`RelayTiming.NoBusyLoop`).

## Model

| member | source | states |
|---|---|---|
| Limits.Reached90IsExact | src/limits.rs:172-176 | the 90 % test equals the real-number comparison for all 32-bit values; 64-bit products never wrap |
| Limits.AcquireIsSound | src/limits.rs:87-138 | admission is decided by the live guards alone: refused as Total iff the total cap is reached, as PerIp iff only the address's cap is; a refusal changes nothing, an admission adds one guard, and counts, caps and warnings stay right |
| Limits.ReleaseIsSound | src/limits.rs:159-170 | dropping a live guard removes exactly that guard, leaves no zero entry, and no subtraction saturates |
| Limits.DropUndoesAcquire | src/limits.rs:87-170 | acquire then drop restores every count and the set of known addresses |
| Limits.HistoryIsFaithful | src/limits.rs:87-170 | after any history of acquires and drops the ledger is the multiset of live guards, and the warning flags say what the history says |
| Limits.WarnedBeforeRejected | src/limits.rs:90-114 | every rejection is preceded by that layer's 90 % warning, for an address within its present residency |
| Limits.WarnedOnce | src/limits.rs:101-168 | the total warning is raised at most once ever, an address's once per residency |
| Limits.WarnedExactlyWhenDue | src/limits.rs:98-114 | in any history an admission raises a warning iff the count it reaches is at least 90 % of that cap and the warning has not been raised (for an address, in its present residency) |
| Limits.ConnLimits.constructor | src/limits.rs:74-80 | a fresh limiter is valid and tracks no guard |
| Limits.ConnLimits.Acquire | src/limits.rs:87-138 | the in-place form gives the answer and state of the critical section, keeps the object valid and records the guard |
| Limits.ConnLimits.DropGuard | src/limits.rs:159-170 | the in-place form gives back exactly the guard's slot and keeps the object valid |
| ProxyProtocol.V2Header | src/proxy/proxy_protocol.rs:43-74 | the buffer built piece by piece is one that a receiver, whatever follows, reads back as the announcement, stopping at its end |
| ProxyProtocol.ReceiverReadsBack | src/proxy/proxy_protocol.rs:33-74 | round trip through a section 2.2 receiver for all addresses and payloads: the addresses meant, defined byte by byte, with their ports when the families agree, LOCAL otherwise |
| ProxyProtocol.ReceiverSees | src/proxy/proxy_protocol.rs:36-74 | a source or destination of ten zero bytes, FF FF and four bytes reaches the receiver as the IPv4 address of those four bytes, any other unchanged, each with its port; LOCAL exactly when the two then differ in family |
| ProxyProtocol.EveryAddressStands | src/proxy/proxy_protocol.rs:36-47 | every address falls under exactly one of those cases, with one result |
| ProxyProtocol.NoEarlyDecision | src/proxy/proxy_protocol.rs:43-74 | on every proper prefix of a header the receiver waits for more |
| ProxyProtocol.StreamsAreUnambiguous | src/proxy/proxy_protocol.rs:43-74 | equal streams announce equal endpoints and carry equal payloads |
| RequestLine.LossySplitsAtLineFeed | src/metrics.rs:191-196 | lossy decoding never swallows a line feed, so it can be cut there |
| RequestLine.HeadDecides | src/metrics.rs:186-203 | any head the loop may stop with has the same first line as the first 1024 bytes |
| RequestLine.Client.Read | src/metrics.rs:189 | one read: an error, or between one byte and all the free space, or 0 exactly at the end or with no space |
| RequestLine.HandleRequest | src/metrics.rs:182-203 | the loop ends, and its 200 or 404 decision is a function of the client's first 1024 bytes, however reads split them |
| RequestLine.AnswerFromBytes | src/metrics.rs:195-203 | for an ASCII first line that ends within 1024 bytes, 200 is deserved iff the line, less one carriage return, is white space, "GET", white space, and a word that is "/metrics" or starts with "/metrics?", spelled out in bytes |
| RequestLine.AnswerWithoutLineFeed | src/metrics.rs:191-203 | the same for ASCII heads without a line feed, where no carriage return is dropped |
| RequestLine.IsMetricsMeans | src/metrics.rs:198-203 | the same over any decoded line, with Unicode white space |
| RequestLine.LossyDecodes | src/metrics.rs:195 | well-formed UTF-8 is decoded to the code points it encodes |
| RequestLine.SpacesAre | src/metrics.rs:199 | white space is exactly Unicode's 25 code points |
| Copy.InvStep | src/proxy/tcp.rs:343-386 | what every action of a direction keeps: written is a prefix of read, counter equals total, total <= written <= read <= total + 16384, an unprompted `Eof` means everything was delivered and the writer shut down |
| Copy.RankDrops | src/proxy/tcp.rs:347-386 | once the token is set or the loop is over, every action uses up a bounded rank |
| Copy.OwnActionIsPossible | src/proxy/tcp.rs:347-386 | a direction that is not done always has an action that does not depend on the network |
| Copy.PassLeads | src/proxy/tcp.rs:347-382 | one pass of the loop is exactly what its atomic actions lead to, partial and cut writes included |
| Copy.WriteAll | src/proxy/tcp.rs:359-363 | the pieces taken make up exactly the first part of the buffer |
| Copy.CopyChunk | src/proxy/tcp.rs:351-363 | what is read is appended to the bytes read, what is taken to the bytes written |
| Copy.OnePass | src/proxy/tcp.rs:347-382 | one pass over the buffer changes the loop's variables as the actions do |
| Copy.CopyDir | src/proxy/tcp.rs:329-387 | the loop's result is where the atomic actions of its passes lead, and satisfies the direction's invariant |
| Watchdog.Deadlines | src/proxy/tcp.rs:412-447 | both deadline checks: the verdict in exact milliseconds for every clock value below the ceiling, the length of the sleep, the armed grace |
| Watchdog.Watch | src/proxy/tcp.rs:391-471 | the loop returns the reason its iterations lead to, having asked for exactly the right sleeps; it cancels iff the reason is not "eof" |
| Watchdog.VerdictMeaning | src/proxy/tcp.rs:399-468 | a verdict closes iff the exact deadline (1000 ms for each configured second) has passed, saturation included, the idle one first; a sleep lasts until the nearest deadline but 20 ms at least and 5000 ms at most, so it ends at most 19 ms after any |
| Relay.StepKeepsInv | src/proxy/tcp.rs:258-471 | every step of every task keeps the relay's invariant: both directions', that each completion message is in the channel or accounted for, and that the reason is true |
| Relay.EofMeansDelivered | src/proxy/tcp.rs:345-386 | in any run, reason "eof" means both directions read end-of-stream, each writer was given exactly its reader's bytes in order and shut down, and nothing was cancelled |
| Relay.ConsumedEofIsReal | src/proxy/tcp.rs:384-464 | in any run, an `Eof` the watchdog consumes comes from a direction that read and delivered everything, never from a cancelled one |
| Relay.ReasonIsTrue | src/proxy/tcp.rs:406-466 | in any run, "reset" means a direction failed, "shutdown" that it was asked for, "half_close_timeout" that a direction had finished; the token is set iff the reason is not "eof" |
| Relay.BytesAtAnyMoment | src/proxy/tcp.rs:343-386 | in any state of any run, each writer holds a prefix of its reader's bytes, return value and counter agree, at most one buffer is unaccounted for |
| Relay.AfterReadError | src/proxy/tcp.rs:374-386 | in any run, a direction whose read failed reports an error, and has shut its writer before it does |
| Relay.SendNeverBlocks | src/proxy/tcp.rs:274-385 | in any run, a direction about to report can do so: the capacity-2 channel is never full |
| Relay.ChannelNeverCloses | src/proxy/tcp.rs:450-465 | the watchdog never sees the channel closed |
| Relay.ReturnedMeansEnding | src/proxy/tcp.rs:306-317 | once the watchdog returned for whatever reason, both directions are bound to end and one can move unless both are done |
| Relay.JoinsComplete | src/proxy/tcp.rs:316-317 | from there every run holds a bounded number of steps of the directions, and where none is left both joins are complete |
| RelayWatch.WatchdogIsTheLoop | src/proxy/tcp.rs:391-471 | the iterations of any relay run, given to the watchdog loop, make it return that run's reason and cancel alike |
| RelayTiming.ReadIsStamped | src/proxy/tcp.rs:351-363 | in any run, between a read of a direction and the first byte it hands on lies a store of the activity stamp |
| RelayTiming.StampsAreStored | src/proxy/tcp.rs:272-358 | in any run, the values of `last_activity` are the start and the clock values at the run's stores, in order |
| RelayTiming.ActivityLasts | src/proxy/tcp.rs:358 | after a store, `last_activity` is never from before it |
| RelayTiming.NeverEarly | src/proxy/tcp.rs:399-447 | in any run, "idle_timeout" is returned only after a full idle time between the moments of its stores, "half_close_timeout" only after a full grace of silence between them since the later of arming and last activity; the grace is armed no earlier than the first report |
| RelayTiming.NeverLate | src/proxy/tcp.rs:415-468 | with ideal timers an open connection is at most 19 ms past its idle deadline, counted from the run's last store, and past the grace after the first report or last store |
| RelayTiming.IdealGoesOn | src/proxy/tcp.rs:406-470 | the ideal schedule never gets stuck, so the bound above says something |
| RelayTiming.NoBusyLoop | src/proxy/tcp.rs:404-470 | over any stretch of any run lasting T ms the watchdog starts at most T/20 + 3 iterations |
| Connection.StepKeepsInv | src/proxy/tcp.rs:184-254 | at every step the upstream socket has been given a part of the header, or the whole header and then what the relay wrote |
| Connection.BackendLearnsClient | src/proxy/tcp.rs:229-252 | with the header on, a section 2.2 receiver waits until it is complete, then knows the client's canonical address and is left with a prefix of the client's bytes, all of them after "eof" |
| Connection.NothingButTheClient | src/proxy/tcp.rs:229-252 | with the header off, the upstream is given a prefix of the client's bytes, all of them after "eof" |
| TcpServe.StepKeepsInv | src/proxy/tcp.rs:114-254 | every step of the accept loop and its tasks keeps places, slots and counters consistent |
| TcpServe.Accounting | src/proxy/tcp.rs:114-253 | in any run, each accepted connection is a failure, a timeout, cancelled, closed or running, exactly once; the gauge counts open relays; the limiter counts live tasks, in total and per address, within the caps |
| TcpServe.RejectedMetACap | src/proxy/tcp.rs:126-148 | in any run, `rejected` counts exactly the connections that met a cap, `accepted` all the others |
| TcpServe.ReturnedMeansEmpty | src/proxy/tcp.rs:169-180 | when `serve_graceful` returns, every connection has its outcome, and gauge and limiter are empty |
| TcpProxy.StepKeepsInv | src/proxy/tcp.rs:104-325 | every step of the whole proxy keeps each connection's invariant, its task where its phase puts it, and every counter equal to the number of connections it stands for |
| TcpProxy.CountersAllow | src/proxy/tcp.rs:154-253 | the books never stand in the way of a connection's own step |
| TcpProxy.CountersAreTrue | src/proxy/tcp.rs:147-322 | in any run, failures, timeouts, cancellations and the closes under each reason are exactly the connections that ended so |
| TcpProxy.CountersAreEvents | src/proxy/tcp.rs:194-322 | in any run, failures, timeouts, cancellations and closes grow by exactly the events of their kind: refused connects and failed header writes, connects that timed out, set-ups the token cut short, relays by the reason their watchdog returned |
| TcpProxy.EofCountsDelivered | src/proxy/tcp.rs:229-325 | in any run, a connection counted as closed with "eof" was delivered in full both ways, after its header if any |
| TcpProxy.CanAlwaysReturn | src/proxy/tcp.rs:169-317 | once both tokens are set, from every reachable state the proxy's own steps alone lead to the return of `serve_graceful`, in a number bounded per live task |
| UdpTable.TestsAgree | src/proxy/udp.rs:133-167 | "wait is 0" and "stale" are the same test as the exact deadline comparison, for all values below the clock's ceiling |
| UdpTable.LookupAnswers | src/proxy/udp.rs:234-255 | the fast path answers "forwarded" iff the source has a live session, which it stamps and keeps; otherwise the source has no session any more, a dead one counted once and as an error |
| UdpTable.LookupKeeps | src/proxy/udp.rs:234-255 | in either case links, slots and close counts stay consistent |
| UdpTable.GrantKeeps | src/proxy/udp.rs:284-300 | admission gives the new life exactly one slot, or none |
| UdpTable.InsertKeeps | src/proxy/udp.rs:339-344 | an insert, replacing or not, keeps links, slots and close counts, and the gauge shows the map |
| UdpTable.SweepOneKeeps | src/proxy/udp.rs:158-173 | evicting a session counts it once and gives back its slot |
| UdpPass.PassSweeps | src/proxy/udp.rs:157-174 | a whole pass, in whatever order, removes exactly the dead and the stale, counts each under its label, cancels the stale and leaves the rest as it was |
| UdpShared.SharedTable.constructor | src/proxy/udp.rs:102-108 | the shared state starts empty and valid |
| UdpShared.SharedTable.Forward | src/proxy/udp.rs:234-255 | the in-place fast path does what the critical section does, answers true iff the source had a live session, leaves no session otherwise, and keeps the state valid |
| UdpShared.SharedTable.MarkPending | src/proxy/udp.rs:272-282 | marks the source and says whether it was unmarked |
| UdpShared.SharedTable.ClearMark | src/proxy/udp.rs:47-54 | dropping the mark removes exactly that source |
| UdpShared.SharedTable.Admit | src/proxy/udp.rs:284-300 | asks the limiter, and on admission records the slot's owner |
| UdpShared.SharedTable.DropSlotOf | src/proxy/udp.rs:320-331 | a failed set-up gives back exactly its own slot |
| UdpShared.SharedTable.InsertSession | src/proxy/udp.rs:339-344 | the in-place insert does what the critical section does, dropping a session it replaces with its slot |
| UdpShared.SharedTable.Retain | src/proxy/udp.rs:157-174 | the `retain` loop visits every session once, removes exactly the dead and the stale, and sets the gauge |
| UdpShared.SharedTable.NextWait | src/proxy/udp.rs:128-149 | the wait is 0 if a session is dead, else the least time to an idle deadline, at most 5000 ms |
| UdpShared.SharedTable.ForceShutdown | src/proxy/udp.rs:190-203 | cancels every session in the map and no other, counts them, zeroes the gauge and leaves the map |
| UdpInvariants.StepKeepsInv | src/proxy/udp.rs:95-351 | every step of every task keeps the table's invariant, one owner per slot, exact `pending`, the gauge, and the drain and gap facts |
| UdpTheorems.LimiterCountsSessions | src/proxy/udp.rs:157-345 | in any reachable state the limiter's total, and its count per address, is the sessions plus the slots of set-ups and the listener, so sessions plus set-ups never exceed a cap |
| UdpTheorems.Bookkeeping | src/proxy/udp.rs:157-345 | in any reachable state connections_total is the sessions plus those closed as idle or error plus those replaced; the gauge shows the map when it is free and not forced; `pending` is exactly the sources marked or being set up, by one task each |
| UdpTheorems.DeadIsRecreated | src/proxy/udp.rs:234-345 | a packet for a dead session, unless draining or marked, evicts it as an error and starts a set-up for its source; both caps always leave room for it |
| UdpTheorems.NewSourceIsSetUp | src/proxy/udp.rs:234-345 | so does the first packet of a source, if it is unmarked and both caps leave room; nothing is rejected |
| UdpTheorems.SetupCompletes | src/proxy/udp.rs:309-345 | a set-up that goes well leaves its session in the map, alive and stamped, counted once, the gauge right, the cleanup task notified and the mark cleared |
| UdpTheorems.RejectedMetACap | src/proxy/udp.rs:284-298 | in any run, `rejected` counts exactly the times the listener met a cap |
| UdpTheorems.ReplacesOnlyThroughGap | src/proxy/udp.rs:234-341 | only an insert replaces, and only if the session was there when the source was marked |
| UdpTheorems.GapReplaces | src/proxy/udp.rs:272-341 | whenever the listener marks a source that by then has a session, a set-up that goes well replaces it |
| UdpTheorems.FusedNeverReplaces | src/proxy/udp.rs:234-341 | with lookup and mark as one step nothing is ever replaced |
| UdpTheorems.DrainingAdmitsNobody | src/proxy/udp.rs:204-282 | from the start of draining on, whatever arrives, no source is marked, admitted or set up |
| UdpWitness.GapIsReached | src/proxy/udp.rs:234-345 | for every configuration, a run from the start to a listener about to mark a source that by now has a session |
| UdpWitness.ReplacementIsReached | src/proxy/udp.rs:234-345 | unless a cap is 1, a run from the start in which a session is replaced |
| UdpWitness.ReplacesIffNoCapIsOne | src/proxy/udp.rs:234-345 | some run replaces a session iff neither cap is 1 |
| UdpWitness.DrainGapIsReached | src/proxy/udp.rs:204-345 | for every configuration, a run from the start that finds the map empty while a set-up task is about to insert |
| UdpWitness.DrainLeakIsReached | src/proxy/udp.rs:204-345 | for every configuration, a run from the start that exits as drained with a session in the map |
| UdpAfterForce.ForcedSessionCountedTwice | src/proxy/udp.rs:126-203 | at the end of the force arm in any run, each session in the map is among those it counted, and some continuation counts it again as an eviction iff the cleanup task has not stopped |
| UdpAfterForce.ForceBooks | src/proxy/udp.rs:157-203 | in any reachable state "shutdown" counts exactly the sessions the force arm saw, and connections_total plus those of them out of the map equals all closes and replacements plus the sessions in the map it did not see |
| UdpAfterForce.GaugeStaysZero | src/proxy/udp.rs:190-203 | after the force arm some continuation shows a gauge other than 0 iff a set-up task is past its check of the force token |
| UdpDrain.DrainIsSound | src/proxy/udp.rs:208-215 | the whole test: if at the first read no set-up can still insert, then whatever happens before the second, an exit means that the map was empty at the first and that map, `pending` and set-ups are empty at the second |
| UdpDrain.DrainedExits | src/proxy/udp.rs:204-215 | a proxy asked to stop, with empty map and `pending`, does exit if nothing comes between |
| UdpDrain.DrainLeaks | src/proxy/udp.rs:208-215 | if one can, there is a continuation in which the test passes and a session is left in the map |
| UdpDrain.OneStepTestSuffices | src/proxy/udp.rs:204-215 | were map and `pending` read in one step, an exit would leave both empty in every later state, without any condition |
| UdpDrain.ExitedStaysEmpty | src/proxy/udp.rs:204-215 | after a sound exit the map and `pending` stay empty in every later state |
| UdpStops.CleanupCanStop | src/proxy/udp.rs:126-155 | once the listener has exited, drained or forced, the cleanup task can come to its end by its own steps |
| UdpStops.StopsOnlyAtTheEnd | src/proxy/udp.rs:106-152 | in any run the cleanup task has stopped only if the listener exited or the force token is set |
| UdpHoused.RunningMeansKnown | src/proxy/udp.rs:157-345 | in any reachable state the sessions that run outside the map and outside the set-up tasks are at most as many as the inserts that took a place; if none did, every running session is in the map or in its set-up task's hands |
| UdpTiming.SleepsPastNoDeadline | src/proxy/udp.rs:126-155 | in any run, a sleep without a stored permit ends within 5000 ms and, overdue or not, was to end by every session's idle deadline and was not begun on a dead session |
| UdpTiming.SleepLasts | src/proxy/udp.rs:150-155 | unless the permit or the shutdown ends it, a planned sleep ends exactly from its length on |
| UdpTiming.EvictedOnTime | src/proxy/udp.rs:126-176 | with ideal timers no live session outstays its idle deadline, no dead one stays longer than 5000 ms |
| UdpEviction.NoWaitIffExpired | src/proxy/udp.rs:128-167 | the scheduler does not sleep iff the eviction test holds of some session |
| UdpEviction.WaitIsUnique | src/proxy/udp.rs:128-149 | the scheduler's wait is determined by the map and the clock |
| UdpEviction.WaitInMilliseconds | src/proxy/udp.rs:128-149 | with no dead session and below the clock's ceiling, the wait ends at the first idle deadline, 1000 ms for each configured second, or after 5000 ms |
| UdpEviction.PassEvicts | src/proxy/udp.rs:126-176 | a session dead or stale before a pass is gone when a pass has completed, unless it was alive and has been refreshed, whatever the other tasks do |
| UdpEviction.IdleOnlyAfterSilence | src/proxy/udp.rs:156-173 | never early: a session is closed as idle only by a pass whose clock is a whole idle time past each opening, forwarding or relay activity of that session |
| UdpForce.ForceArmCancelsAll | src/proxy/udp.rs:190-203 | in any run, when the force arm has walked over the map every session in it is cancelled, whatever the other tasks did meanwhile |
| UdpEviction.RetainIsARun | src/proxy/udp.rs:156-175 | the `retain` loop, in its order, is a run of the step system |
| Datagrams.StepKeepsInv | src/proxy/udp.rs:245-436 | every step keeps: sent, in flight and queued are the accepted datagrams in order; at most 256 are queued |
| Datagrams.SentInOfferOrder | src/proxy/udp.rs:394-436 | in any run of one queue, what was sent without error are the first accepted datagrams, each once and in the order of their offers; none is lost while the task runs |
| Datagrams.FirstOfferFirst | src/proxy/udp.rs:394-436 | the first datagram offered is accepted iff the relay task still runs, and is then the first one sent; otherwise none ever is |
| Datagrams.BytesAreSizes | src/proxy/udp.rs:418-422 | in any run, the byte counter grows by exactly the sizes the sends returned |
| Datagrams.TakenIffRoom | src/proxy/udp.rs:245-252 | an offer is taken, at the end of the queue, iff fewer than 256 wait and the task still runs |
| Datagrams.EndIsFinal | src/proxy/udp.rs:411-436 | after a send error, a cancelled token or an abandoned queue the session is cancelled, nothing more is sent and nothing taken |
| UdpFlow.MoveKeeps | src/proxy/udp.rs:216-345 | every step, with the datagrams it moves, keeps: each queue has been offered datagrams of its own source in increasing order of arrival, the one its set-up task carries first |
| UdpFlow.OffersFollowArrivals | src/proxy/udp.rs:228-340 | in any run, for every session ever opened: its offers are strictly increasing places among the received datagrams, all from its source, and the first is the packet that opened it |
| UdpFlow.SentFollowsArrivals | src/proxy/udp.rs:216-436 | in any run, for every session: what was sent upstream without error are datagrams received from its source, in order of arrival and none twice, the first ones its queue took; at most 256 wait; the opening packet, if taken, is the first sent |
| UdpFlow.OpeningIsOffered | src/proxy/udp.rs:338-340 | the set-up task's offer is the first its queue ever gets, and it is taken iff the relay task still runs |
| UdpFlow.ForwardIsOffered | src/proxy/udp.rs:245-252 | in any run, a packet of a live session is offered to that session's queue, as its next datagram, and taken iff there is room |
| UdpFlow.OpeningIsInHand | src/proxy/udp.rs:228-340 | in any run, a set-up task carries the datagram just received, which is its source's |
| UdpFlow.RelayTaskMarks | src/proxy/udp.rs:416-433 | the relay task stamps its session with every datagram it takes, and the session is cancelled when it has ended |
| UdpFlow.FlowsAreRuns | src/proxy/udp.rs:95-351 | without the datagrams, a run of the whole is a run of the proxy's tasks |
| Datagrams.DrainedMeansAllSent | src/proxy/udp.rs:411-417 | a session dropped without being cancelled still sends everything it accepted before its task ends |
| Datagrams.TurnsAreARun | src/proxy/udp.rs:410-436 | the relay task's loop is a run of the step system |
| Datagrams.Upstream.TrySend | src/proxy/udp.rs:245-252 | takes the datagram iff there is room and the receiver lives |
| Datagrams.Upstream.RelayTask | src/proxy/udp.rs:410-436 | the loop does what its turns say: stops on a token, ends when drained or at the first error, else sends the oldest datagram and counts its bytes |

## Left out

- Sockets, DNS, connect, bind, keepalive and TCP_USER_TIMEOUT (`src/socket_opts.rs`): foreign calls, modelled as arbitrary results.
- The downstream half of a UDP session (lines 438-471): one datagram at a time without a queue; its stamps and its end are events of any session.
- Order across two sessions of the same source: an old session can be in the middle of a send when a new one starts.
- Tokio itself: the scheduler, wakers, and the timing of `drain_tick`; a drain test may come at any moment.
- Command line, TOML loading and validation (`src/cli.rs`, `src/config.rs`): field precedence and single-branch checks.
- Logging, the Prometheus registry and its text encoding, the response the metrics endpoint writes: only counters and gauges are kept; UDP and TCP rejections are counted without their reason label.
- Panics, poisoned locks, memory exhaustion.
- `accept` and `recv_from` errors: they change none of the modelled state.
- The tasks of `TcpServe` and `UdpProxy` are step systems on values, not objects: they share state with each other at every await point. The state they share is modelled in place by `ConnLimits` and `SharedTable`; a session record there is an entry of `objects` under its id, standing for the shared allocation.
- UdpShared.SharedTable.InsertSession: the record of a session is put into `objects` by `OpenSucceeds` in the step system, and the session's queue is the separate `Datagrams.Upstream`.
- RelayTiming.NeverLate: real timers and schedulers may add delay; the bound is for ideal ones.
- UdpTiming.EvictedOnTime: a session that joins when it is already past its deadline is allowed to be in the map at that instant; the stored permit has it evicted before time passes.
- UdpAfterForce.ForcedSessionCountedTwice: says when a session can be counted again while the clock is more than 5000 ms below its ceiling, so that a sleep can end.
- TcpProxy.CanAlwaysReturn: that a fair scheduler does take these steps is Tokio's part; an unfair `select!` could let the watchdog's timer win for ever.
- Watchdog.VerdictMeaning: gives the exact length of a sleep while the clock is at least 5000 ms below its ceiling; nearer to it the saturating deadline shortens sleeps.
- RequestLine.AnswerFromBytes: for ASCII lines; what other bytes decode to is `LossyDecodes` where they are well-formed.
- Limits.AcquireIsSound: assumes fewer than 2^32 - 1 live guards, as the source's `+= 1` does.
