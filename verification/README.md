# Verified model of the dcmpi runtime and layout compiler

dcmpi runs DataCutter programs: filters exchange buffers over named ports, a layout compiler
expands, composes and places the filters on hosts, and on every host a process moves the buffers
over sockets to the other processes of its cluster, over a proxy to other clusters, and to the
console.  This project models that behaviour in Dafny and proves what it promises.

- **Runtime** (`Topology`, `RouteCount`, `Network`, `Runtime`, `Upstream`, `Termination`, `Announcements`,
  `Progress`, `Putters`, `Notices`, `Sums`, `Ledger`, `Bounded`, `Draining`, `Endings`, `Shares`).  The socket runtime is a step system over any
  number of clusters and processes: filters write, stop and retire, queues drain, packets are
  received, kept or passed on, done messages are counted, processes leave.  Every theorem about it is
  about all runs.
- **One process** (`Queue`, `MemUsage`, `MainLoop`, `Threads`, `Surroundings`, `Simulation`,
  `Objects`).  The main loop
  and the threads as imperative classes over the numbers, queues, counters and socket contents a
  process really has; each action is shown to be the step of the whole runtime, possible exactly when
  that step is.
- **Readers** (`Readers`).  The polling loops by which filters wait for input, against other threads.
- **Startup** (`Handshake`).  The connection mesh with blocking connects, accepts and reads.
- **SHA-1** (`Bytes`, `Sha1`, `Fips180`).  The streaming implementation against FIPS 180-1, and what the
  constants, functions and words of the standard are, with its first example.
- **Layout compiler** (`Layouts`, `Transparent`, `Composite`, `Placement`, `LocalCopies`,
  `ClusterRanks`).
- **Buffers and formats** (`Buffers`, `Streams`, `Serialized`, `Serializers`, `Header`).
- **Target selection and quoting** (`Outports`, `ShellQuote`).  `Common` holds what several modules share.

The code's loops and objects that change are methods and classes here, each tied by its
postconditions to specification functions; the properties are lemmas about those functions and
invariants over runs.  Granularity of the step system: taking a packet out of a queue and writing it
to the next is one step, and so are writing one packet, charging a buffer and feeding it, and taking
a buffer out of an in-port and releasing it.

Host names that mean this machine, the members of remote clusters, the layouts that composite filters
stand for, random choices and the byte order of a machine are parameters.

## Findings

Properties that do not hold of the code as it stands, each with its exact condition:

- `read_until_upstream_exit` tests for an item and then for putters (src/DCFilterExecutor.cpp:158-163).
  If the last item and the removal of the last putter fall between the two tests, it reports the end
  of the stream with an item unread.  `ReadUntilUpstreamExitExact`: it is right under every
  interleaving exactly when an item waits or the putters have gone before the first test; its proof
  gives the interleaving that goes wrong.
- `readany` has the same gap at every port, and a second one between ports
  (src/DCFilterExecutor.cpp:205-222).  `ReadAnyExact` gives the condition.
- `expand_transparents` copies the out-ports of a filter before it extends the connections that lead
  to the filter (src/DCLayout.cpp:785-845).  If the filter leads to itself, the copies lead only to the
  original.  `ExpansionIsProduct`: the full product results exactly when no multi-copy filter leads to
  itself.  A comment says that copies come right after the original (src/DCLayout.cpp:854); the code
  inserts them before it, and so does the model.
- `expand_composites` links the outbound designate only if the composite has out-ports, and asserts
  only then that the designate has none of its own (src/DCLayout.cpp:971-987).  `TurnKeepsEdges`: a turn
  keeps all connections exactly when a composite without out-ports has no outbound designate that
  already feeds its inbound designate.
- `shell_unquote` takes the text before the first `=` as plain (src/dcmpi_util.cpp:169-176), which is
  wrong if the quoted text begins with `=`.  `QuoteRoundTrip`: quoting is undone exactly for texts that
  are empty or begin with a letter or a digit; `LostFirst` says what comes back for the others.
- Port names are read back as C strings (src/DCMPIPacket.h:127-138).  `HeaderRoundTrip`: a header is
  restored exactly when neither name contains a zero byte.
- `New` and `Set` reset the byte-order flag of a buffer (src/DCBuffer.cpp:110-149), so a flag forced on
  a buffer without memory is lost at its first append, after the first value has been written in its
  order.  `Append` says when the flag is reset.  `BareRoundTrip`: the values come back exactly when the
  flag was the machine's own order or the first value that writes any bytes has the same bytes in both
  orders; `WrongOrder` says which numbers have.  On a buffer with memory every flag is right
  (`SendAndReceive`).
- A process divides its memory among its filters and itself (src/dcmpiruntime-socket.cpp:332-357), and
  takes in a buffer only if it fits its share (src/dcmpiruntime-socket.cpp:580-585).  So the one filter of
  a host can write a buffer that a host with three filters and the same memory never takes in:
  `LargeBufferWaitsForEver` is a run from the start to such a state, and `OversizedForEver` says that the
  buffer stays where it is in every continuation.  `EndsExactlyIfWelcome`: a reachable state can be brought
  to the end, with every buffer delivered and read, exactly when every buffer on its way fits the
  counters still ahead of it and is meant for a filter that works, and every unread buffer waits for a
  filter that works.  `PatientRunsEnd`: every run then comes there if filters return only when nothing is on
  its way to them, as those do that read their in-ports to the end (`UpstreamExitIsPatient`).
  `EvenLimitsFit`: no buffer is too large where no filter may write more than any process can take in.


## Model

| member | source | states |
|---|---|---|
| Topology.RoutingTotality | src/dcmpiruntime-socket.cpp:172-275 | from any sender to any other rank, over any number and size of clusters, repeated routing decisions bring a packet to its destination: at most three main loops handle it, all different, none of them the sender's, the last one the destination's |
| Topology.OutrankValid | src/dcmpiruntime-socket.cpp:199-227 | a packet that goes out on a socket goes to another process of the sender's own cluster, so the socket exists |
| Topology.VisitsAreRelays | src/dcmpiruntime-socket.cpp:127-275 | the handlers met along a route are given in closed form by sender and destination alone |
| Topology.NextFits | src/dcmpiruntime-socket.cpp:172-275 | every step of a route is strictly forward, and only the destination's main loop keeps a packet |
| RouteCount.MessagesToRouteExact | src/dcmpiruntime-socket.cpp:455-470 | the number a process computes is the number of ordered pairs of other ranks whose done message passes through it, for every layout of clusters, with or without a console |
| Network.PutKeepsFifo | src/QueueWriter.h:24-76 | sending keeps every packet on its route and each pair of ranks first-in first-out over its whole route |
| Network.MoveKeepsFifo | src/dcmpiruntime-socket.cpp:559-688 | so does taking a packet out of any queue or socket and passing it on |
| Termination.LeavingIsSafe | src/dcmpiruntime-socket.cpp:490-557 | in every run, a process that has left its main loop has handled every packet that goes to it or through it: all senders have announced, nothing is still to be handled, and what was sent to it has arrived in order |
| Termination.NothingArrivesAfterLeaving | src/dcmpiruntime-socket.cpp:526-557 | however the run goes on, nothing more is ever sent to or through a process that has left |
| Announcements.AnnouncementComesLast | src/dcmpiruntime-socket.cpp:490-499 | in every run, while a process announces, its filters have returned, its outgoing queue is empty, and everything in the proxy queue of a head is one of its own done messages, so nothing of its filters or of others waits in front of them |
| Announcements.ClosedConsoleIsSilent | src/ConsoleToMPIThread.h:77-90 | once the console has closed, all it ever wrote is at process 0 or beyond, and what it has sent to any process is final in every continuation |
| Announcements.ZeroLeavesLast | src/dcmpiruntime-socket.cpp:544-550 | process 0 leaves only after the console has announced and closed, with nothing of it left to take in |
| Ledger.LedgerConservation | src/MemUsage.cpp:25-131 | in every run, each byte counter equals the bytes of the live buffers charged to it and stays between zero and its threshold |
| Ledger.ReleaseMatches | src/dcmpiruntime-socket.cpp:258-273 | on every kind of route the counter chosen for release is the one that held the buffer |
| Ledger.ReadIsCovered | src/DCFilter.cpp:91-150 | when a filter reads, the counter it releases holds at least the bytes of the buffer, so the assertion in `reduce` holds |
| Ledger.ReleaseIsCovered | src/dcmpiruntime-util.h:96-130 | the same when a socket, proxy or console writer passes a buffer on |
| Ledger.NothingLeaks | src/MemUsage.cpp:75-100 | once every packet is delivered and every buffer read, every counter is zero |
| Putters.PutterSafety | src/dcmpiruntime-util.h:141-195 | in every run, once a filter is no putter of an in-port any more, all it ever wrote there has arrived, in its write order, and what is unread still waits |
| Putters.NoPuttersMeansFinal | src/Queue.h:104-118 | a queue without putters never receives anything again, and has received all that any of its feeders ever writes |
| Notices.PuttersAreExact | src/dcmpiruntime-util.h:176-186 | in every run, a filter is a putter of an in-port if and only if the port is one of its targets and its notice has not come there, and a notice is sent exactly when the filter tells that target |
| Notices.FinishedIsNoPutter | src/dcmpiruntime-socket.cpp:167-169 | a filter that has finished, and all of whose packets to a process have arrived, is a putter of no in-port there |
| Notices.NoPuttersAtEnd | src/DCFilterExecutor.cpp:137-176 | when all is over no in-port has a putter left, so no reader waits for one |
| Progress.NoDeadlock | src/dcmpiruntime-socket.cpp:488-700 | in every reachable state in which waiting buffers find room, a step that is no filter's own choice is possible, unless nothing waits and some filter still works, or all is over |
| Progress.OverIsFinal | src/dcmpiruntime-socket.cpp:526-557 | once all processes have left and everything is delivered, no step of any kind is possible |
| Draining.OnlyReadersBlock | src/MemUsage.cpp:102-131 | with no assumption on room, the runtime can go on by itself or rests for one of three reasons: nothing waits and some filter works; every waiting queue begins with a buffer that does not fit beside what the filters of its next process have not read; or all is over |
| Draining.ReadersComeToTheEnd | src/dcmpiruntime-socket.cpp:488-700 | from every reachable state whose buffers are meant for working filters and fit into the counters still ahead of them, the filters can read and return so that all is over and read, and every counter is back at zero |
| Endings.EndsExactlyIfWelcome | src/dcmpiruntime-socket.cpp:580-585 | a reachable state can be brought to that end, with or without further writes, if and only if its buffers are so |
| Endings.UnwelcomeForEver | src/dcmpiruntime-socket.cpp:580-585 | a buffer that does not fit somewhere ahead, or whose filter has returned, spoils every continuation |
| Endings.OversizedForEver | src/dcmpiruntime-socket.cpp:580-585 | a buffer larger than the threshold of the counter that is to take it in stays at its place for ever |
| Endings.RestIsTheEnd | src/dcmpiruntime-socket.cpp:526-557 | a run in which nothing but a write is possible any more is over with everything read if and only if its buffers are welcome |
| Endings.RestIsBlocked | src/MemUsage.cpp:102-131 | if it rests anywhere else, every filter has returned and every waiting queue is blocked |
| Endings.PatientRunsEnd | src/dcmpiruntime-util.h:141-195 | every run without writes in which filters return only when nothing is on its way to them is bounded, and where it cannot go on it is at the end, with all counters at zero |
| Endings.UpstreamExitIsPatient | src/DCFilterExecutor.cpp:137-176 | a filter that has seen all putters of its in-ports gone and has read what was there has nothing on its way |
| Shares.LargeBufferWaitsForEver | src/dcmpiruntime-socket.cpp:332-357 | a run from the start, with the thresholds as the code divides them, to a written buffer that its receiver never takes in |
| Shares.EvenLimitsFit | src/dcmpiruntime-socket.cpp:332-357 | if no filter may write more than every process can take in, every buffer fits in every run |
| Bounded.RunsAreFinite | src/dcmpiruntime-socket.cpp:488-700 | a run is no longer than the work known at its start plus eleven steps for every write |
| Bounded.StepWorks | src/dcmpiruntime-socket.cpp:488-700 | every step but a write strictly lowers the remaining work, and a write raises it by at most ten |
| MainLoop.Process.DeliverElsewhere | src/dcmpiruntime-socket.cpp:172-275 | the code's tests on ranks and offsets put the packet where the routing table says, release the ledger as the step system does, and count relayed done messages |
| MainLoop.Process.DeliverInPlace | src/dcmpiruntime-socket.cpp:127-170 | keeping a packet changes in-port, putters and counter as delivery does in the step system |
| MainLoop.Process.ReadPacket | src/dcmpiruntime-socket.cpp:559-609 | the next packet is read if and only if its body fits the ledger; a head whose body does not fit stays behind and nothing else changes |
| MainLoop.Process.ReadSocket | src/dcmpiruntime-socket.cpp:559-609 | one turn for one socket has the effect of a hop out of that socket, or none |
| MainLoop.Process.CountMessagesToRoute | src/dcmpiruntime-socket.cpp:455-470 | the computation at the start of the main loop yields the number of relayed pairs |
| MainLoop.Process.AnnounceDone | src/dcmpiruntime-socket.cpp:492-520 | the announcement loop appends to every queue exactly the done messages that belong there, in rank order |
| Simulation.Rank.constructor | src/dcmpiruntime-socket.cpp:448-487 | a process before its threads start mirrors its part of the initial state of the whole runtime |
| Simulation.Rank.TakeSocket | src/dcmpiruntime-socket.cpp:559-609 | a socket turn succeeds if and only if the hop is possible in the whole runtime, and the process then mirrors the state after the hop |
| Simulation.Rank.TakeFromConsole | src/dcmpiruntime-socket.cpp:611-628 | taking a packet from the console queue is the hop out of it |
| Simulation.Rank.TakeFromProxy | src/dcmpiruntime-socket.cpp:630-688 | taking a packet from the proxy, head first and body when there is room, is the hop out of the proxy's queue |
| Simulation.Rank.DrainOutQueue | src/dcmpiruntime-socket.cpp:277-298 | a turn of the outgoing-queue thread is the hop out of that queue |
| Simulation.Rank.MayBegin | src/dcmpiruntime-socket.cpp:490-499 | the test before the announcement holds exactly when the announcing step is possible |
| Simulation.Rank.MayLeave | src/dcmpiruntime-socket.cpp:522-557 | the test for breaking out of the loop holds exactly when the leaving step is possible |
| Simulation.Rank.AnnounceAll | src/dcmpiruntime-socket.cpp:499-520 | after the announcement the process mirrors the state in which all ranks have been told |
| Simulation.AnnouncingRun | src/dcmpiruntime-socket.cpp:499-520 | that state is reached by one announcing step for every rank and one to end the loop |
| Surroundings.ForeignStepsFrame | src/dcmpiruntime-socket.cpp:488-700 | a step of another process, of its filters and threads, of the console or the proxy appends to the queues a process reads, takes from the front of those it alone writes, and leaves its counters, in-ports, filters and tallies as they are |
| Simulation.Rank.OnlyQueuesChange | src/dcmpiruntime-socket.cpp:488-700 | after such a step the process mirrors the whole again as soon as its queues do |
| Threads.Shared.ChooseQueue | src/dcmpiruntime-socket.cpp:379-414 | the queue chosen for a connection is where the route of the pair begins |
| Threads.Shared.WriteBuffer | src/DCFilterExecutor.cpp:251-269 | writing to a selected target is the write step of the runtime |
| Threads.Shared.WriteBroadcast | src/DCFilterExecutor.cpp:299-329 | a broadcast is one write step for each target in turn, with whatever the other threads do before each copy finds room |
| Threads.Shared.ReadBuffer | src/DCFilter.cpp:91-104 | reading is the read step and returns the oldest buffer |
| Threads.Shared.FinishFilter | src/dcmpiruntime-util.h:141-195 | the end of a filter thread is the run that tells every target and only then finishes |
| Threads.Shared.ProxyWriter | src/dcmpiruntime-util.h:96-130 | emptying the proxy queue is a run of hops out of it, ledger releases included |
| Threads.Shared.MPIToConsole | src/MPIToConsoleThread.h:38-63 | emptying the console queue is a run of hops out of it, with the counter chosen by the filters placed here |
| Threads.Shared.FromConsoleTurn | src/MPIFromConsoleThread.h:25-57 | one packet from the console is the hop that charges the runtime's counter |
| Threads.Shared.ConsoleCloses | src/MPIFromConsoleThread.h:25-57 | the closing packet removes the console from the putters of its queue |
| Queues.Queue.Get | src/Queue.h:23-36 | the oldest item comes out and the rest stays in order |
| Queues.Queue.GetAllIfItemPresent | src/Queue.h:54-72 | all items come out in order, or none if there is none |
| Queues.Queue.RemovePutter | src/Queue.h:113-118 | exactly the one putter is removed |
| MemUsages.MemUsage.Accumulate | src/MemUsage.cpp:25-73 | the counter grows from the first level, among those seen at the notifications, that leaves room; a buffer larger than the threshold ends the program |
| MemUsages.MemUsage.Reduce | src/MemUsage.cpp:75-100 | the counter shrinks by the bytes and stays non-negative |
| MemUsages.MemUsage.AccumulateIfNotExceedingLimit | src/MemUsage.cpp:102-131 | the counter grows if and only if there is room |
| Objects.ProcessObjects.Accumulate | src/MemUsage.cpp:25-73 | on the counter objects of a process, charging one is the charge of the step system from the level at which there is room, and leaves all others alone |
| Objects.ProcessObjects.Reduce | src/MemUsage.cpp:75-100 | the same for a release |
| Objects.ProcessObjects.AccumulateIfRoom | src/MemUsage.cpp:102-131 | the same for a charge that is tried |
| Objects.ProcessObjects.PutPacket | src/Queue.h:37-46 | on the queue objects, a put is the put of the step system |
| Objects.ProcessObjects.TakePacket | src/Queue.h:23-36 | and a get takes out the packet the step system takes |
| Objects.ProcessObjects.RemovePutterAt | src/Queue.h:113-118 | removing a putter of an in-port object is the removal of the step system |
| Objects.ProcessObjects.ReadArrival | src/DCFilter.cpp:91-104 | a read on the objects is the read step, queue and counter together |
| Readers.InPorts.ReadUntilUpstreamExit | src/DCFilterExecutor.cpp:137-176 | the polling loop returns what its specification prescribes, whatever other threads do between its two tests |
| Readers.InPorts.ReadAny | src/DCFilterExecutor.cpp:178-249 | the same for the loop over all in-ports, from any starting port |
| Readers.ReadTakesOldest | src/DCFilterExecutor.cpp:158-160 | whatever other threads do, an item returned is the oldest of the port: its items and arrivals are this item and what is left, and no other port has lost anything; an empty answer came after the port was found empty and then without putters |
| Readers.ReadAnyTakesOldest | src/DCFilterExecutor.cpp:204-222 | the same for all ports: the item is the oldest of the port named, which is the first one asked, going round from the starting port, that was not empty at that moment; an empty answer came after a round in which every port was found empty and then without putters |
| Readers.ReadUntilUpstreamExitExact | src/DCFilterExecutor.cpp:158-163 | the answer is right under every interleaving if and only if an item waits or the putters have gone before the queue is tested |
| Readers.ReadAnyExact | src/DCFilterExecutor.cpp:205-212 | the answer is right under every interleaving if and only if an item waits somewhere or all putters have gone before it looks |
| Handshake.NoDeadlock | src/dcmpiruntime-socket.cpp:916-1030 | for every number of processes from one on, every backlog of at least one and every interleaving, the startup is never stuck before all are through |
| Handshake.MeshIsComplete | src/dcmpiruntime-socket.cpp:916-1030 | at the end each pair of ranks shares exactly one link, stored on both sides, and no two pairs share one; what is kept for the barrier is in the next rows |
| Handshake.BarriersAreSecond | src/dcmpiruntime-socket.cpp:933-942 | at any time, whatever rank 0 or a client keeps for the barrier is the second connection of that client to rank 0 |
| Handshake.BarriersAreShared | src/dcmpiruntime-socket.cpp:37-57 | at the end rank 0 and each other rank hold the same barrier connection, which is no link of the mesh and no barrier of another rank |
| Handshake.PortIsKnown | src/dcmpiruntime-socket.cpp:946-1003 | a rank connects to a higher one only after it has read that rank's port from rank 0, and the ports it reads are exactly those of the other ranks |
| Handshake.StartupTerminates | src/dcmpiruntime-socket.cpp:916-1030 | no interleaving takes more steps than the fixed amount of work, and one that takes them all is finished |
| Sha1.DigestOfPieces | src/dcmpi_sha1.cpp:41-280 | however a message is cut into pieces, the digest is the one section 7 of FIPS 180-1 defines on the padded message; the rows of Fips180 say what its constants, functions and words are |
| Sha1.Context.Process | src/dcmpi_sha1.cpp:53-207 | the sixteen-word schedule in place and the renamed registers compute the compression of the standard, with eighty schedule words and five shifting registers |
| Sha1.Context.Update | src/dcmpi_sha1.cpp:209-246 | the context then stands for the message with the piece appended |
| Sha1.Context.Finish | src/dcmpi_sha1.cpp:248-280 | the result is the digest of the whole message |
| Sha1.PaddingIsShortest | src/dcmpi_sha1.cpp:248-280 | the padding is the shortest that ends on a block boundary |
| Fips180.ConstantIsRoot | src/dcmpi_sha1.cpp:94-199 | the constant of each quarter of the steps is the integer part of 2^30 times the square root of 2, 3, 5 and 10 |
| Fips180.StartIsPattern | src/dcmpi_sha1.cpp:41-51 | the bytes of the first chaining value count 01, 23 up to EF, back from FE to 10, and then F0, E1, D2, C3 |
| Fips180.Rotl1Is | src/dcmpi_sha1.cpp:74-79 | a rotation by one multiplies modulo 2^32 and adds what was shifted out |
| Fips180.Rotl5Is | src/dcmpi_sha1.cpp:74-86 | the same by five |
| Fips180.Rotl30Is | src/dcmpi_sha1.cpp:74-86 | the same by thirty |
| Fips180.SumIs | src/dcmpi_sha1.cpp:83-86 | a sum of five words is that of their numbers modulo 2^32 |
| Fips180.MixIs | src/dcmpi_sha1.cpp:76-80 | a schedule word is the bitwise parity of the four earlier words, rotated by one |
| Fips180.FirstFunctionIs | src/dcmpi_sha1.cpp:94 | in the first twenty steps the first argument chooses bit by bit between the other two |
| Fips180.EvenFunctionIs | src/dcmpi_sha1.cpp:121 | in the second and the last twenty the function is the parity of the three |
| Fips180.ThirdFunctionIs | src/dcmpi_sha1.cpp:148 | in the third twenty it is the majority: what two agree on, and where they differ what the third says |
| Fips180.ToWordIs | src/dcmpi_sha1.cpp:24-30 | a word is loaded as the number that its four bytes stand for, most significant first |
| Fips180.WordBytesIs | src/dcmpi_sha1.cpp:32-39 | and stored as the four bytes of its number |
| Fips180.DigestOfAbc | src/dcmpi_sha1.cpp:41-280 | the digest of "abc" is the one that FIPS 180-1 gives as its first example |
| Transparent.Builder.ExpandTransparents | src/DCLayout.cpp:746-863 | the loop ends, with no multi-copy filter left, and its effect is that of the expansions in the order it found them |
| Transparent.ExpansionIsProduct | src/DCLayout.cpp:746-863 | in whatever order: the layout stays closed, copies are numbered with the host and labels of their number, and connections become the full product of copies, with multiplicity, if and only if no multi-copy filter leads to itself |
| Transparent.ExpansionKeepsOrder | src/DCLayout.cpp:849-860 | in whatever order: the result lists the originals in their first order, each directly preceded by its copies 1, 2, ... in the order of their numbers |
| Composite.Expansion.ExpandComposite | src/DCLayout.cpp:865-1021 | one turn replaces the composite by its members, with all ports redirected to the designates and its hosts handed to members without their own |
| Composite.Expansion.ExpandComposites | src/DCLayout.cpp:865-1021 | the outer loop is a run of such turns; it ends with no composite left, or with one that has not exactly one designate each way |
| Composite.CompositionClosed | src/DCLayout.cpp:865-1021 | every port target stays inside the layout over the whole run |
| Composite.TurnKeepsEdges | src/DCLayout.cpp:971-987 | one turn keeps all connections with their multiplicity if and only if a composite without out-ports has no outbound designate feeding its inbound one |
| Composite.CompositionKeepsEdges | src/DCLayout.cpp:865-1021 | over any depth of nesting, connections become those between the instances that end up sending and receiving |
| Composite.CompositionInherits | src/DCLayout.cpp:921-938 | over any depth of nesting, each instance of the result has the name, copies, labels and designate flags its own layout wrote, and the hosts written there or else those of the nearest composite around it that has some, or none |
| Composite.ComposeOrder | src/DCLayout.cpp:1003-1020 | one turn keeps the order of the other instances and puts the members behind them in their own order |
| Placement.Placer.DoPlacement | src/DCLayout.cpp:1023-1194 | it fails exactly when an unbound filter has no host to go to; otherwise hosts, global ids, run hosts, ranks and port tables are right: the k-th unbound filter has the k-th host of the pool in turn |
| LocalCopies.NumberCopies | src/DCLayout.cpp:1087-1106 | the number of a copy on its host is how many of the same name came before it there, and the count how many there are |
| LocalCopies.LocalRanksAreBijective | src/DCLayout.cpp:1087-1106 | the copies of one filter on one host are numbered from zero to their count, each number once, in order |
| Placement.TablesAreConverse | src/DCLayout.cpp:1173-1193 | the in-port and out-port tables are converses of each other |
| Placement.PuttersAreFeeders | src/DCFilterExecutor.cpp:52-74 | the putters that setup installs are exactly the filters that will retire from the port, whatever the clusters |
| ClusterRanks.Assigner.Assign | src/DCLayout.cpp:456-571 | after a placement, hosts are divided by cluster, ranked cluster by cluster, filters ranked and tagged, and the offsets computed |
| ClusterRanks.RanksBijective | src/DCLayout.cpp:456-497 | ranks 0 .. n-1 and hosts determine each other |
| ClusterRanks.GroupOwnsRange | src/DCLayout.cpp:525-571 | cluster k owns exactly the ranks from its offset to the next, and the cluster of a rank is k just for those |
| ClusterRanks.HostPlaced | src/DCLayout.cpp:456-497 | the tag a host carries is the cluster its rank lies in |
| ClusterRanks.PlacementIsValid | src/DCLayout.cpp:456-571 | a placement over any number of clusters is a configuration the runtime theorems are about |
| Buffers.DCBuffer.Append | src/DCBuffer.cpp:185-229 | contents are extended by the bytes, or by their reverse on conversion; the flag goes back to the machine's order exactly if there was no memory and some bytes; the cost bound is kept; the program ends only for a full buffer it does not own |
| Buffers.DCBuffer.Extract | src/DCBuffer.cpp:242-258 | the next bytes in the right order, or nothing if there are fewer |
| Buffers.AppendAll | src/DCBuffer.cpp:185-229 | over any run of appends the contents are the pieces joined and all reallocations together copied at most five times the final size |
| Bytes.StoredDigit | src/dcmpi_util.h:64-77 | a machine of one kind stores the digits of a number in base 256 with the most significant first, one of the other kind last |
| Bytes.LoadedDigit | src/dcmpi_util.h:64-77 | and reads them there |
| Streams.StreamRoundTrip | src/dcmpi.h:126-176 | any stream of numbers, strings and arrays, read with its types, is itself and is used up exactly |
| Streams.SendAndReceive | src/dcmpi.h:230-253 | for every pair of machine byte orders and every flag forced on a buffer with memory, values appended on one machine come back in order on the other |
| Streams.AppendToBare | src/dcmpi.h:126-153 | forced on a buffer without memory, the flag orders the bytes of the first value that writes any, and the machine those of the rest |
| Streams.BareRoundTrip | src/DCBuffer.cpp:110-124 | such values come back if and only if the flag was the machine's own order or the bytes of that first value are the same in both orders |
| Streams.WrongOrder | src/dcmpi_util.h:64-77 | a number read in the wrong order is right exactly when its bytes read the same both ways |
| Serializers.Serialize | src/DCFilterInstance.cpp:59-115 | the appended bytes are the wire format of an image of the instance |
| Serializers.DeSerialize | src/DCFilterInstance.cpp:117-178 | from those bytes the instance is restored and exactly they are used |
| Serializers.SendInstance | src/DCFilterInstance.cpp:59-178 | an instance sent between machines of any byte orders arrives as it was, nothing left over |
| Serializers.SendLayout | src/DCLayout.cpp:667-744 | so does a whole layout with its environment variables |
| Serializers.SaveToDCBuffer | src/DCBuffer.cpp:402-411 | a nested buffer is written with its contents and its flag, also to a buffer without memory whose flag was forced, as the first byte reads the same both ways |
| Serializers.RestoreFromDCBuffer | src/DCBuffer.cpp:412-427 | and restored with both |
| Serialized.InstanceRoundTrip | src/DCFilterInstance.cpp:59-178 | in either byte order, with maps and sets in any order and anything behind, every serialized field is restored and exactly its bytes are used |
| Serialized.LayoutRoundTrip | src/DCLayout.cpp:667-744 | the same for layouts |
| Header.ToByteArray | src/DCMPIPacket.h:60-104 | the array holds the header format: 161 bytes in the machine's order |
| Header.FirstByte | src/DCMPIPacket.h:72-73 | the first byte is one on a big-endian machine and zero on any other |
| Header.InitFromByteArray | src/DCMPIPacket.h:105-143 | the packet is what the header format says, for any pair of byte orders |
| Header.HeaderRoundTrip | src/DCMPIPacket.h:60-143 | the packet comes back if and only if neither port name contains a zero byte |
| Outports.MultiOutportManager.NoteFinalTarget | src/MultiOutportManager.cpp:11-37 | the targets of every label are collected and every cursor stands on the first |
| Outports.MultiOutportManager.SelectTarget | src/MultiOutportManager.cpp:39-83 | under either policy, labels and tickets are answered as the history so far prescribes, and so are default requests under round robin; under the random policy they get the random number modulo the number of targets; a label or ticket without target ends the program and changes nothing |
| Outports.DefaultIsFair | src/MultiOutportManager.cpp:39-83 | over any history, mixed with labelled and ticketed writes, default choices of any two targets differ by at most one |
| Outports.LabelIsFair | src/MultiOutportManager.cpp:39-83 | the choices for a label are fair among exactly its targets |
| ShellQuote.Tokenize | src/dcmpi.h:687-705 | the tokens are the maximal runs without a delimiter |
| ShellQuote.Quote | src/dcmpi_util.cpp:143-163 | the text is quoted byte by byte |
| ShellQuote.KeptAre | src/dcmpi_util.cpp:150-153 | the bytes that quoting leaves as they are are those of the ten digits and the twenty-six letters of either case |
| ShellQuote.HexDigitsAre | src/dcmpi_util.cpp:156-159 | the others are written with lower-case hexadecimal digits, and digits of either case are read |
| ShellQuote.Unquote | src/dcmpi_util.cpp:165-179 | the loop computes the inverse reading, errors included |
| ShellQuote.QuoteRoundTrip | src/dcmpi_util.cpp:143-179 | unquoting restores exactly the texts that are empty or start with a letter or digit |
| ShellQuote.LostFirst | src/dcmpi_util.cpp:143-179 | any other text comes back with its first byte replaced by its two hexadecimal digits |
| ShellQuote.QuotingIsInjective | src/dcmpi_util.cpp:143-163 | different texts are quoted differently |

## Left out

- Sockets, threads, condition variables, process launch and exit codes; links are first-in first-out sequences and a step is taken by one thread at a time, at the granularity named above.
- Byte interleaving of two threads on one socket, and the flag of a received body, which is taken from a header array that may be stale by then (src/dcmpiruntime-socket.cpp:595).
- The closing packet of the console travels as a flag (`Runtime.Close`), the `bye` line of the proxy not at all, and the barrier at the end of the main loop is not modelled.
- Simulation.Rank.TakeFromConsole: takes one packet at a time, where the code first collects all that wait; a packet that arrives meanwhile comes behind them either way.
- Progress.NoDeadlock: assumes that waiting buffers find room; `Draining.OnlyReadersBlock` says what happens without that.
- Simulation.Rank.TakeSocket: it is given that every waiting packet lies on its route, which is part of the invariant of every run; the arrival of bytes from others has no method of its own, and `Surroundings.ForeignStepsFrame` says what it does.
- MemUsages.MemUsage.Accumulate: the levels at the notifications are a parameter, one of which leaves room; a thread that is never given room waits for ever in the code.
- Threads.Shared.WriteBroadcast: what the other threads do is a parameter that leaves room for the next copy in the end.
- Endings.OversizedForEver: at the socket from the console the code ends the program instead of waiting (src/MPIFromConsoleThread.h:43); the model leaves the buffer there.
- Shares.LargeBufferWaitsForEver: the memory of a host is a parameter of the shares, read from a file in the code.
- Threads.Shared: `writeany`, the nonblocking reads and the variants of `write` without a copy differ only in the choice of port or in copying.
- Readers.InPorts.ReadAny: the random start is a parameter, and sleeping between rounds does nothing.
- Handshake: modelled on values, as the interleaving of all processes, not as the loops of one; host names and the choice among several addresses of rank 0 are left out, and a connection request names its rank truthfully.
- Sha1.Context.Process: the eighty macro lines are sixteen turns of five steps over named registers; words and bytes are numbers, and where the code joins shifted words with `|` the model adds them (src/dcmpi_sha1.cpp:262-264).
- Sha1.Context.Update: pieces shorter than 2^32 bytes, as the length argument of the code is 32 bits wide.
- Transparent.ExpansionIsProduct: the code asserts that several hosts are given only one for each copy (src/DCLayout.cpp:767); filters still to be expanded have copy number zero, as when they are made.
- Composite.Expansion.ExpandComposites: what a composite consists of is an oracle that gives closed layouts of new instances; since layouts may nest for ever, the number of turns is bounded.
- Composite: a port of a composite that has no targets disappears, as it has no connection to redirect.
- Composite.CompositionInherits: the distinguished name of the composite, which members also inherit (src/DCLayout.cpp:926), is not part of an instance.
- Placement.Placer.DoPlacement: a filter is bound to at most one host by then and to none that is called `<console>`.
- ClusterRanks.Assigner.Assign: which hosts match a remote cluster is a parameter, as regular expressions are not modelled; a match of this machine ends the program before.
- ClusterRanks.PlacementIsValid: no console filter leads to a console filter; the runtime model has no queue for that connection.
- Start commands, configuration files, the propagation of environment variables beyond their names and values, and the resolution of filter libraries.
- Outports.MultiOutportManager: the order of the targets is taken as it is after the shuffle (src/MultiOutportManager.cpp:13-15); the random number is a parameter, so the random policy has no fairness property; there is at least one target, as the code takes a remainder by their number.
- Buffers.DCBuffer: sizes are unbounded, so the overflow of 32-bit sizes beyond one gigabyte is left out; so are empty allocations, the release of memory, compression, formatted printing, and saving to files.
- Streams: floating-point numbers travel as their bytes; the `p` format of `unpack`, which reads from the start of the buffer, is left out.
- Serializers.Serialize: needs a buffer whose flag will not be reset by its first memory; `Streams.BareRoundTrip` says what happens to the first text otherwise.
- Serializers.SendInstance: the flag is forced on a buffer with memory, and so it is for `Serializers.SendLayout`.
- Serializers.DeSerialize: from complete input; reading truncated input ends the program or leaves fields unset in the code. The result is a new instance rather than an object filled in place, and user buffers are values in its maps.
- Header.ToByteArray: port names of at most 64 bytes; longer ones overrun the header in the code.
- ShellQuote.Unquote: reading a first piece that is not there, and a piece shorter than its two digits, are outcomes of their own; the code has undefined behaviour for the one and an exception for the other.
- `dcmpi_string_replace` and `sql_escape`, which need not terminate.
- Language bindings, LZO, the database, the application registry, menus, graph output, statistics and verbose printing.
