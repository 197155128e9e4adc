# LSP transport and distributed miner: a verified model

This project models three parts of the repository in Dafny and proves what they promise.

**The LSP transport** (`src/github.com/cmu440/lsp`). `Client.dfy` and `ServerConn.dfy` give every arm of the two
event loops on an established connection as a function; classes `ClientSide.Client` and `ServerLoop.Server` perform
the arms in place, loops included, and are proved against those functions. `Link.dfy` couples the two ends of one
connection, through the network between them, to two abstract streams (`Streams.dfy`), one per direction.
`LspSystem.dfy` runs a server with any number of clients, every event being one arm of one loop, in any interleaving.
The network is the set of packets ever sent: any of them may arrive, never, once or often, late, in any order, and
damaged in the ways `lspnet` damages packets (`DataFilter.dfy`, `Checksum.dfy`). The results are first-in-first-out
delivery exactly once in both directions, no loss, sound transmit windows and retransmission timers, and clean
shutdown, in every run. Delivery needs nothing of the acknowledgements but that they were made of acknowledgements sent;
windows and timers are sound as long as the cumulative ones were in step, which `ServerSide.CAckInStep` and
`ClientSide.CAckCovers` spell out and the two `CAckKeepsSenderIff` show to be exact.

`ConnectionTable.dfy` and `TableRuns.dfy` go one level down: the server keeps a connection in eight maps, one more
for timers and a filter for repeated requests, and edits them one assignment at a time; they are proved to stay one
table, which is the table of `ServerLoop`, through every arm and through loops that end connections while iterating.

`Reference.dfy` and `ReferenceRuns.dfy` do the same for the second implementation (`lsp_reference.go`), whose receiver
drops messages too far ahead of it: in no run is that a message of its peer. `Backoff.dfy` relates the three
retransmission timers of the repository, `ThreeBuffers.dfy` its three reorder buffers over every sequence of arrivals,
and `DataFilter.FiltersDiffer` the two acceptance filters.

`ServerSchedule.dfy`, `ClientSchedule.dfy` and `ReferenceSchedule.dfy` say what the counters mean over whole runs of one
end: at which epochs a message is retransmitted, when a message waits, when a heartbeat goes out, and when a connection
is given up. `Reading.dfy` shows that Read brings out all that was delivered, `ServerClosing.dfy` and `ClientClosing.dfy`
when CloseConn and Close complete.

**The mining server** (`src/github.com/cmu440/bitcoin`). `Scheduler.dfy` has the arms of the scheduler, as functions
and as a class; `Miner.dfy` has the search of one miner and the division of a range into jobs. `MiningRuns.dfy` proves,
over every run with losses and arrivals, that jobs and miners are accounted for and that each answer is what one search
of the whole range returns; `MiningMiners.dfy` proves who is given work, in which order, and what a loss takes away, and
`MiningOrder.dfy` proves arrival-order fairness and shortest-job preemption, although the request list is sorted only
now and then.

Where the code does not keep a property, the lemma says exactly when it does: `ClientSide.CAckKeepsSenderIff`,
`ServerSide.CAckKeepsSenderIff` (`LostTimers.dfy` has a run of the whole system to a failing state of each),
`ConnectionTable.CAckKeepsKeysIff` (with `ConnectionTable.EarlyCAckBreaksKeys`), `ClientSchedule.SpanKeptIff`,
`ServerClosing.CloseReleasedIff`, `ServerClosing.CloseIdDanglesIff` (each with a run to a failing state),
`Mining.StopsIff`, `Checksum.OverflowBound`, `Checksum.SingleWordChange`, `Checksum.HeaderChange`,
`DataFilter.TamperingIsLoss`, `DataFilter.FiltersDiffer`.

## Model

| member | source | states |
|---|---|---|
| Checksum.SumBytes | src/github.com/cmu440/lsp/checksum.go:27-48 | the loop adds the little-endian words of the payload modulo 2^32, an odd last byte padded with zero |
| Checksum.FoldLoop | src/github.com/cmu440/lsp/checksum.go:60-66 | the loop computes the fold of any 32-bit sum and ends |
| Checksum.ComputeChecksum | src/github.com/cmu440/lsp/checksum.go:52-71 | the whole computation: header fields as truncated word sums, payload, fold, complement |
| Checksum.TwoFoldsSuffice | src/github.com/cmu440/lsp/checksum.go:62-66 | the loop body runs at most twice |
| Checksum.FoldClosedForm | src/github.com/cmu440/lsp/checksum.go:62-66 | the result is 0 for 0 and ((sum - 1) mod 65535) + 1 otherwise |
| Checksum.OverflowBound | src/github.com/cmu440/lsp/checksum.go:53-58 | no message of a length, its Size being that length, can carry out of the 32-bit sum if and only if the payload has at most 131068 bytes |
| Checksum.SingleWordChange | src/github.com/cmu440/lsp/checksum.go:52-71 | two payloads that differ in one word have the same checksum exactly when the words are 0x0000 and 0xFFFF and the rest does not sum to zero |
| Checksum.EndAroundCarry | src/github.com/cmu440/lsp/checksum.go:52-71 | checksum, header fields and the bytes of the payload, those at odd positions times 256, add up to a multiple of 65535, less the carry that the addition of the halves of a header field may lose; and the checksum is 65535 only when every word is zero |
| Checksum.HeaderChange | src/github.com/cmu440/lsp/checksum.go:53-58 | a change of connection id, sequence number or size alone goes unnoticed exactly when its word stays the same, or goes from one zero to the other while not all other words are zero |
| Checksum.WordsAreBytes | src/github.com/cmu440/lsp/checksum.go:27-48 | the words of a payload, the last one padded, add up to its bytes, those at odd positions times 256 |
| DataFilter.Write | src/github.com/cmu440/lspnet/conn.go:162-186 | what one write does to the payload of a data message: shorten, lengthen or complement the first byte, tried in this order |
| DataFilter.Filter | src/github.com/cmu440/lsp/server_impl.go:534-545 | the reader's filter: drop what is too short, cut what is too long, compare the checksum of the rest |
| DataFilter.TamperingIsLoss | src/github.com/cmu440/lspnet/conn.go:162-186 | whatever write does to a message, the reader gets it as sent or not at all, and exactly which damage it survives |
| DataFilter.FiltersDiffer | src/github.com/cmu440/lsp/lsp_reference.go:578-589 | the reference filter and the readers' filter part exactly on frames that are too long and, cut to size, do not fit their checksum |
| DataFilter.FiltersAgree | src/github.com/cmu440/lsp/lsp_reference.go:578-589 | on everything the network makes of a genuine message the two filters agree |
| Messages.GetIndex | src/github.com/cmu440/lsp/common.go:77-84 | the first index of a number, or -1 |
| Messages.RemoveFromSlice | src/github.com/cmu440/lsp/common.go:8-15 | the slice without its first message of that number |
| Messages.RemoveFromSliceCAck | src/github.com/cmu440/lsp/common.go:17-24 | what follows the first message of that number, or the whole slice |
| Messages.WithoutRemoves | src/github.com/cmu440/lsp/common.go:86-92 | on distinct numbers exactly the number is gone and the order of the rest is kept |
| Messages.AfterRemoves | src/github.com/cmu440/lsp/common.go:94-100 | on an ascending window that has the number, exactly the larger numbers are left |
| Messages.SortAscending | src/github.com/cmu440/lsp/common.go:62-66 | sorting messages of distinct numbers makes them ascend |
| Messages.SortIsTheOnlyOne | src/github.com/cmu440/lsp/server_impl.go:193-195 | whatever correct algorithm sorts messages of distinct numbers, the result is the one of the model |
| Sorting.SortIsUnique | src/github.com/cmu440/lsp/common.go:62-66 | where no two elements compare equal, every correct sort gives the same result |
| Backoff.ServerClosedForm | src/github.com/cmu440/lsp/server_impl.go:419-446 | a message is retransmitted at exactly the ticks of the closed form: after the k-th, min(2^(k-1), max) + 1 later |
| Backoff.ClientClosedForm | src/github.com/cmu440/lsp/client_impl.go:180-199 | the client retransmits at exactly the ticks of its closed form: after the k-th, max(1, min(2^(k-1), max)) later |
| Backoff.CountDownMirrorsCountUp | src/github.com/cmu440/lsp/lsp_reference.go:259-262 | the reference's countdown is the server's interval minus its running epochs, at every tick |
| Backoff.SameFireTicks | src/github.com/cmu440/lsp/lsp_reference.go:283-295 | the two fire at the same ticks |
| Backoff.SilenceIsBounded | src/github.com/cmu440/lsp/params.go:28-31 | among any max + 1 consecutive ticks every timer fires |
| Streams.Stream.NothingLost | src/github.com/cmu440/lsp/server_impl.go:296-343 | with nothing waiting or pending the receiver has accepted every number written |
| Streams.MovedSends | src/github.com/cmu440/lsp/server_impl.go:168-251 | whatever an arm does to window and queue, as long as it transmits from the queue and drops only accepted numbers, every number written waits, is in the window or is held |
| Streams.Stream.LeastPendingBehind | src/github.com/cmu440/lsp/lsp_reference.go:244-250 | the least pending number never exceeds the one a receiver of whole runs expects |
| ThreeBuffers.BuffersAgree | src/github.com/cmu440/lsp/server_impl.go:296-343 | over every sequence of arrivals and reads: the server's list has handed over exactly the longest stretch that arrived without a gap; the client's record is never ahead and behind exactly while it has the next number; the reference's map is never ahead and level as long as nothing arrived beyond its window |
| ClientSide.DialedIsEstablished | src/github.com/cmu440/lsp/client_impl.go:144-232 | the connection request goes out in every epoch, so no heartbeat precedes the connection; and however many epochs its acknowledgement took, the connection starts in the same state |
| ClientSide.Client.GetWindowSize | src/github.com/cmu440/lsp/common.go:106-111 | the span of the window |
| ClientSide.Client.ManageToSend | src/github.com/cmu440/lsp/client_impl.go:115-133 | the loop promotes as the specification does, and what it transmits |
| ClientSide.ToSendMovesPrefix | src/github.com/cmu440/lsp/client_impl.go:115-133 | a prefix of the queue moves to the end of the window with fresh timers, and it stops only at an empty queue or a closed gate |
| ClientSide.Client.HandleWrite | src/github.com/cmu440/lsp/client_impl.go:203-210 | the new state and what is transmitted |
| ClientSide.Client.HandleAck | src/github.com/cmu440/lsp/client_impl.go:217-232 | the new state, what is transmitted, whether this connects the client, and whether a pending Close ends the loop first |
| ClientSide.Client.HandleCAck | src/github.com/cmu440/lsp/client_impl.go:233-252 | the new state, what is transmitted, whether this connects the client, and whether a pending Close ends the loop first |
| ClientSide.Client.HandleClose | src/github.com/cmu440/lsp/client_impl.go:136-167 | Close ends the loop at once exactly when nothing is unsent, recorded or in the channel, whatever the window holds |
| ClientSide.Client.ManageReceived | src/github.com/cmu440/lsp/client_impl.go:91-102 | sorts the record and moves the payload waited for into the channel, only when that is empty |
| ClientSide.Client.HandleData | src/github.com/cmu440/lsp/client_impl.go:253-269 | records a message once, ignores what was delivered, acknowledges it in every case |
| ClientSide.Client.TickTimer | src/github.com/cmu440/lsp/client_impl.go:181-198 | one timer: whether it fires and its new value |
| ClientSide.Client.Retransmit | src/github.com/cmu440/lsp/client_impl.go:180-199 | every timer of the window moves once, and exactly the due messages are sent, in window order |
| ClientSide.Client.HandleTick | src/github.com/cmu440/lsp/client_impl.go:168-199 | heartbeat, giving up, retransmission |
| ClientSide.DueMessagesExact | src/github.com/cmu440/lsp/client_impl.go:180-199 | what is retransmitted is what is in the window and due, and nothing else |
| ClientSide.WriteKeepsSender | src/github.com/cmu440/lsp/client_impl.go:203-210 | window and queue ascend and the timers are exactly those of the window |
| ClientSide.AckKeepsSender | src/github.com/cmu440/lsp/client_impl.go:217-232 | after any acknowledgement window and queue ascend and the timers are exactly those of the window |
| ClientSide.CAckKeepsSenderIff | src/github.com/cmu440/lsp/client_impl.go:239-252 | after a cumulative acknowledgement the timers are still those of the window if and only if its number is in the window or below all of it |
| ClientSide.ToReadKeeps | src/github.com/cmu440/lsp/client_impl.go:91-102 | the record holds distinct numbers, none of them delivered |
| ServerSide.PromotesPrefix | src/github.com/cmu440/lsp/server_impl.go:183-197 | the promotion loop, which looks at the whole queue, takes a prefix of it |
| ServerSide.StopsAtClosedGate | src/github.com/cmu440/lsp/server_impl.go:183-184 | the first message left behind does not pass the gate |
| ServerSide.AckKeepsSender | src/github.com/cmu440/lsp/server_impl.go:157-196 | window and queue ascend, and the timers are those of the window, each with its own message |
| ServerSide.AckKeepsGate | src/github.com/cmu440/lsp/server_impl.go:168-196 | a message waits only while the gate is closed to the first one waiting |
| ServerSide.AckKeepsLimits | src/github.com/cmu440/lsp/server_impl.go:168-196 | the window spans less than WindowSize beyond its head and holds at most MaxUnackedMessages |
| ServerSide.SendKeepsSender | src/github.com/cmu440/lsp/server_impl.go:349-383 | a Write keeps order, timers, gate and both limits |
| ServerSide.SendKeepsOrder | src/github.com/cmu440/lsp/server_impl.go:358-380 | a Write, which never looks at the queue, never overtakes a queued message |
| ServerSide.CAckKeepsSenderIff | src/github.com/cmu440/lsp/server_impl.go:213-251 | timers, window and queue stay in step exactly when the last message of the window is acknowledged and nothing waits |
| ServerSide.DrainTakesRun | src/github.com/cmu440/lsp/server_impl.go:320-333 | the findElement loop takes the whole contiguous run and leaves what lies beyond the first gap |
| ServerSide.TickKeepsSender | src/github.com/cmu440/lsp/server_impl.go:419-446 | the window and timers stay in step, and only messages of the window are retransmitted |
| ServerLoop.FindElement | src/github.com/cmu440/lsp/server_impl.go:506-514 | takes the first message of a number out of the list |
| ServerLoop.Drain | src/github.com/cmu440/lsp/server_impl.go:318-333 | the loop computes the run, the counter and the rest |
| ServerLoop.PromotionLoop | src/github.com/cmu440/lsp/server_impl.go:183-197 | the loop computes the promoted messages, the window and the timers |
| ServerLoop.RemovalLoop | src/github.com/cmu440/lsp/server_impl.go:198-200 | the loop takes the promoted messages out of the queue |
| ServerLoop.DropWindowTimers | src/github.com/cmu440/lsp/server_impl.go:219-226 | the loop drops exactly the timers of the window |
| ServerLoop.AckRow | src/github.com/cmu440/lsp/server_impl.go:161-200 | the arm on the record of its connection |
| ServerLoop.CAckRow | src/github.com/cmu440/lsp/server_impl.go:214-251 | the arm on the record of its connection |
| ServerLoop.DataRow | src/github.com/cmu440/lsp/server_impl.go:296-342 | the arm on the record of its connection, and what it appends to the read list |
| ServerLoop.SendRow | src/github.com/cmu440/lsp/server_impl.go:353-382 | the arm of a Write on the record of its connection |
| ServerLoop.ContainId | src/github.com/cmu440/lsp/server_impl.go:467-474 | whether the read list has a message of the connection |
| ServerLoop.AgeLoop | src/github.com/cmu440/lsp/server_impl.go:386-399 | every connection ages, and at most one that is silent, drained and past the limit is reported and ended; one is if the channel was empty |
| ServerLoop.HeartbeatLoop | src/github.com/cmu440/lsp/server_impl.go:402-415 | exactly the connections that sent nothing get a heartbeat |
| ServerLoop.RetransmitConn | src/github.com/cmu440/lsp/server_impl.go:419-446 | for one connection: expiry, the new timers, and exactly the due messages |
| ServerLoop.RetransmitLoop | src/github.com/cmu440/lsp/server_impl.go:419-446 | the connections that survive, with all timers moved |
| ServerLoop.Server.ManageReadList | src/github.com/cmu440/lsp/server_impl.go:97-104 | moves the head of the list into the channel, only when that is empty |
| ServerLoop.Server.CheckClosed | src/github.com/cmu440/lsp/server_impl.go:110-130 | whether every window and queue is empty |
| ServerLoop.Server.EndConnection | src/github.com/cmu440/lsp/server_impl.go:478-501 | the connection and its address are gone, all else is unchanged |
| ServerLoop.Server.HandleAck | src/github.com/cmu440/lsp/server_impl.go:157-209 | the new state, what is transmitted, and whether a pending Close is released |
| ServerLoop.Server.HandleCAck | src/github.com/cmu440/lsp/server_impl.go:213-260 | the new state for any id, with whatever connection a pending CloseConn ends, what is transmitted, and whether a pending Close is released |
| ServerLoop.Server.HandleConnect | src/github.com/cmu440/lsp/server_impl.go:262-294 | a new connection under the next id, or nothing for a known address; the id acknowledged |
| ServerLoop.Server.HandleData | src/github.com/cmu440/lsp/server_impl.go:296-343 | the new state; the message is acknowledged in every case |
| ServerLoop.Server.HandleSend | src/github.com/cmu440/lsp/server_impl.go:349-383 | the new state and what is transmitted |
| ServerLoop.Server.HandleTick | src/github.com/cmu440/lsp/server_impl.go:385-446 | the three loops of an epoch together |
| ServerLoop.Server.HandleClose | src/github.com/cmu440/lsp/server_impl.go:448-452 | Close is released at once exactly when everything is idle |
| ServerLoop.Server.HandleCloseConn | src/github.com/cmu440/lsp/server_impl.go:455-460 | ends an idle connection, or remembers it |
| ServerLoop.RunKeepsTable | src/github.com/cmu440/lsp/server_impl.go:262-294 | in every run ids and addresses are one to one, and ids are never reused and never change hands |
| ConnectionTable.EndedKeepsCoherent | src/github.com/cmu440/lsp/server_impl.go:478-501 | ending a connection removes it from every map with all its timers and frees its address |
| ConnectionTable.AckRefines | src/github.com/cmu440/lsp/server_impl.go:161-200 | the assignments to the maps change the record of the connection as the arm says, and no other |
| ConnectionTable.DataRefines | src/github.com/cmu440/lsp/server_impl.go:296-342 | a data message for a live connection changes the record of that connection as the arm says, and no other |
| ConnectionTable.SendRefines | src/github.com/cmu440/lsp/server_impl.go:349-383 | a Write changes the record of its connection as the arm says, and nothing when there is none |
| ConnectionTable.ConnectRefines | src/github.com/cmu440/lsp/server_impl.go:275-294 | a request adds one fresh record, or nothing when its address is in use, which is what the filter says |
| ConnectionTable.CAckRefines | src/github.com/cmu440/lsp/server_impl.go:213-251 | a cumulative acknowledgement of a live connection changes its record as the arm says, and no other |
| ConnectionTable.CAckKeepsKeysIff | src/github.com/cmu440/lsp/server_impl.go:213-251 | a cumulative acknowledgement keeps the eight key sets equal exactly when it names a live connection |
| ConnectionTable.StrayCAck | src/github.com/cmu440/lsp/server_impl.go:213-251 | for any other id all that it changes is an empty window under that id |
| ConnectionTable.EarlyCAckBreaksKeys | src/github.com/cmu440/lsp/server_impl.go:213-217 | one that arrives before any connection breaks them, at the very first event |
| TableRuns.CAckThenCloseRefines | src/github.com/cmu440/lsp/server_impl.go:213-256 | the whole arm, which may end another connection than the one it names, keeps the eight maps one table and takes them where the event loop takes its records |
| TableRuns.BackoffRefines | src/github.com/cmu440/lsp/server_impl.go:419-446 | iterating in any order over a map from which it deletes, the loop ends exactly the expired connections and moves all other timers |
| TableRuns.StepRefines | src/github.com/cmu440/lsp/server_impl.go:149-460 | each event, cumulative acknowledgements of live connections among them, takes the maps where the event loop takes its records |
| TableRuns.RunStaysCoherent | src/github.com/cmu440/lsp/server_impl.go:149-460 | in every run whose data, cumulative acknowledgements and CloseConn name live connections the maps are one table and hold exactly the records |
| Links.ClientGetsAckKeepsInv | src/github.com/cmu440/lsp/client_impl.go:217-232 | an acknowledgement ever sent may arrive at any time: both ends stay coupled to the two streams, so every number written is queued, in the window, or held by the server |
| Links.ClientGetsCAckKeepsInv | src/github.com/cmu440/lsp/client_impl.go:233-252 | the same for any cumulative acknowledgement of numbers all of which were acknowledged |
| Links.ClientWritesKeepsInv | src/github.com/cmu440/lsp/client_impl.go:203-210 | a Write extends what was written by one payload, and what is transmitted is the next of it |
| Links.ClientGetsDataKeepsInv | src/github.com/cmu440/lsp/client_impl.go:253-269 | a message ever sent may arrive at any time, often: it is accepted once, delivered in turn, and every acknowledgement stands for a message held |
| Links.ClientTicksKeepsInv | src/github.com/cmu440/lsp/client_impl.go:168-199 | an epoch sends nothing new, and a heartbeat never retires data |
| Links.ServerWritesKeepsInv | src/github.com/cmu440/lsp/server_impl.go:349-383 | a Write extends what was written by one payload, which is transmitted or waits |
| Links.ServerGetsAckKeepsInv | src/github.com/cmu440/lsp/server_impl.go:157-198 | an acknowledgement ever sent retires only numbers the client holds, and what it promotes was written |
| Links.ServerGetsCAckKeepsInv | src/github.com/cmu440/lsp/server_impl.go:213-251 | the same for any cumulative acknowledgement of numbers all of which were acknowledged, although it drops timers and leaves promoted messages in the queue |
| Links.ServerGetsNext | src/github.com/cmu440/lsp/server_impl.go:318-333 | the number waited for and the run behind it extend the read list by the next payloads written |
| Links.ServerGetsDataKeepsInv | src/github.com/cmu440/lsp/server_impl.go:296-343 | any message ever sent, in any order and often, leaves the read list the beginning of what the client wrote |
| Links.ServerTicksKeepsInv | src/github.com/cmu440/lsp/server_impl.go:385-446 | what an epoch retransmits was sent before, and a heartbeat never retires data |
| LspSystem.ServerRuns | src/github.com/cmu440/lsp/server_impl.go:149-460 | the server inside the system runs its own event loop |
| LspSystem.RunKeepsInv | src/github.com/cmu440/lsp/server_impl.go:149-460 | every connection of every reachable state satisfies the coupling, and the read list is divided among the connections |
| LspSystem.RunsAreFifo | src/github.com/cmu440/lsp/server_impl.go:296-383 | what Read returned is the beginning of what the other side wrote, in both directions, per connection, in every run, whatever acknowledgements arrive |
| LspSystem.ReadsNameConnections | src/github.com/cmu440/lsp/server_impl.go:556-560 | Read returns messages of established connections only |
| LspSystem.NothingIsLost | src/github.com/cmu440/lsp/client_impl.go:217-268 | with nothing queued or unacknowledged at the client, read and still to be read is everything it wrote; with nothing queued or unacknowledged at the server for a client, what the client's Read returned or its channel and record hold is everything written to it |
| LspSystem.CloseMeansDelivered | src/github.com/cmu440/lsp/server_impl.go:110-130 | when Close is released, each connected client has everything written to it |
| LspSystem.GivingUpIsClean | src/github.com/cmu440/lsp/client_impl.go:173-178 | a client that gives up has returned from Read, in order, every message it ever acknowledged |
| LspSystem.WindowsAreSound | src/github.com/cmu440/lsp/server_impl.go:168-196 | the window, timers and limits of every live connection in every reachable state, and in plain numbers that a message waits only when the window is full, as long as its cumulative acknowledgements were in step |
| LspSystem.ClientTickIsPossible | src/github.com/cmu440/lsp/client_impl.go:180-182 | no client ever looks up a timer that is gone, as long as its cumulative acknowledgements were in step |
| LspSystem.RunKeepsIds | src/github.com/cmu440/lsp/server_impl.go:275-294 | ids are never reused, between any two states of a run |
| Reading.ReadIsServed | src/github.com/cmu440/lsp/server_impl.go:97-104 | after a request to read, and after a new message, the channel that Read receives from is empty only when there is nothing to read |
| Reading.ReadReturnsNext | src/github.com/cmu440/lsp/server_impl.go:553-560 | from every reachable state in which something waits, a request to read and a receipt return what has waited longest |
| Reading.ReadsReturnAll | src/github.com/cmu440/lsp/server_impl.go:343-348 | from every reachable state, one request to read and one receipt for each message that waits return everything delivered, which for a client with nothing queued or unacknowledged is all that it wrote |
| Reading.ClientReadIsServed | src/github.com/cmu440/lsp/client_impl.go:91-102 | after a request to read, and after any message, the channel of a client is empty only when its record lacks the next number |
| Reading.ClientReadsReturnAll | src/github.com/cmu440/lsp/client_impl.go:91-102 | requests to read and receipts alone bring out everything that arrived in order, which is all that was written once the server has nothing queued or unacknowledged for the client |
| ClientClosing.ReleasedWhenDelivered | src/github.com/cmu440/lsp/client_impl.go:136-142 | a client whose Close is released has returned from Read all it acknowledged, and all it wrote has reached the server if its window is empty |
| ClientClosing.ReleasedTooSoon | src/github.com/cmu440/lsp/client_impl.go:136-142 | a run of the whole system in which Close would be released although the only message written has not arrived |
| LostTimers.ClientLosesTimer | src/github.com/cmu440/lsp/client_impl.go:239-249 | a run of the whole system in which a cumulative acknowledgement of acknowledged messages costs the client a timer |
| LostTimers.ServerLosesTimer | src/github.com/cmu440/lsp/server_impl.go:213-251 | a run of the whole system in which a cumulative acknowledgement of an acknowledged message costs the server a timer |
| ServerSchedule.WindowsStaySound | src/github.com/cmu440/lsp/server_impl.go:157-199 | in every run of the server, whatever acknowledgements arrive, cumulative ones in step: the window ascends within both limits, its timers are exactly its numbers, and, in plain numbers, a message waits only when it lies WindowSize or more past the first one in the window or the window has MaxUnackedMessages |
| ServerSchedule.CAckCanLoseTimer | src/github.com/cmu440/lsp/server_impl.go:213-251 | a run to a state in which a cumulative acknowledgement costs a message its timer |
| ServerSchedule.TimersFollowSchedule | src/github.com/cmu440/lsp/server_impl.go:419-446 | in every run, cumulative acknowledgements included, each timer is where the schedule puts it after as many epochs as have passed since its message was put into the window |
| ServerSchedule.NeverRestarted | src/github.com/cmu440/lsp/server_impl.go:183-197 | while timers, window and queue are in step no running timer is started again |
| ServerSchedule.AckedForGood | src/github.com/cmu440/lsp/server_impl.go:157-251 | a message once acknowledged never has a timer again and is never in the window or the queue again |
| ServerSchedule.RetransmittedOnSchedule | src/github.com/cmu440/lsp/server_impl.go:424-446 | an epoch sends again, for each connection that survives it, exactly the unacknowledged messages whose age the closed form names |
| ServerSchedule.CountersMeanSilence | src/github.com/cmu440/lsp/server_impl.go:386-415 | the idle counter is the number of epochs since the client was last heard of, and a heartbeat is due exactly when no Write was transmitted since the epoch before |
| ServerSchedule.EndedForAReason | src/github.com/cmu440/lsp/server_impl.go:385-422 | an epoch ends a connection if and only if its loss is reported, and then it has been silent for EpochLimit epochs with nothing unread, or one of its messages has been unacknowledged for EpochLimit epochs |
| ServerSchedule.LossIsReported | src/github.com/cmu440/lsp/server_impl.go:386-399 | an epoch reports a loss if and only if no report waits to be read and some connection has been silent for EpochLimit epochs with nothing unread or out of order; the report is the id of a connection that it ends |
| ServerSchedule.OthersUntouched | src/github.com/cmu440/lsp/server_impl.go:149-460 | the parts of the state that each event leaves alone: only an epoch writes a report, only Close closes |
| ServerClosing.CloseConnIsRemembered | src/github.com/cmu440/lsp/server_impl.go:455-460 | after CloseConn of a live connection, and before another, its id is remembered and something of it is unacknowledged or waiting for as long as it is live, so the acknowledgement of its last message ends it, while its cumulative acknowledgements are in step |
| ServerClosing.EndedWhenDone | src/github.com/cmu440/lsp/server_impl.go:201-256 | no event other than an epoch ends a connection that nobody asked to close, or one with anything unacknowledged or waiting |
| ServerClosing.CloseIdDanglesIff | src/github.com/cmu440/lsp/server_impl.go:253-256 | the remembered id names no live connection, which the cumulative acknowledgement arm cannot bear, if and only if an epoch ended that connection while its CloseConn was pending |
| ServerClosing.CloseIdCanDangle | src/github.com/cmu440/lsp/server_impl.go:385-422 | a run to such a state |
| ServerClosing.ReleasedWhenQuiet | src/github.com/cmu440/lsp/server_impl.go:110-130 | Close is released only after it was called and with nothing unacknowledged or waiting anywhere |
| ServerClosing.CloseReleasedIff | src/github.com/cmu440/lsp/server_impl.go:207-260 | the event that leaves nothing unacknowledged or waiting after Close was called releases it if and only if it is not an epoch |
| ServerClosing.CloseCanBeMissed | src/github.com/cmu440/lsp/server_impl.go:385-422 | a run in which an epoch ends the last connection and the pending Close is not released |
| ClientSchedule.TimersFollowSchedule | src/github.com/cmu440/lsp/client_impl.go:180-199 | in every run of the client each timer is where the schedule puts it after as many epochs as its message has been unacknowledged |
| ClientSchedule.RetransmittedOnSchedule | src/github.com/cmu440/lsp/client_impl.go:180-199 | an epoch retransmits exactly the messages of the window whose age the closed form names |
| ClientSchedule.CountersMeanSilence | src/github.com/cmu440/lsp/client_impl.go:152-213 | from the connection request on, the idle counter is the number of epochs since anything arrived, and a heartbeat goes out exactly when nothing was transmitted in the epoch before or since |
| ClientSchedule.GivesUpWhenSilent | src/github.com/cmu440/lsp/client_impl.go:173-178 | the client gives up exactly after EpochLimit silent epochs with nothing recorded and nothing to read |
| ClientSchedule.SpanKeptIff | src/github.com/cmu440/lsp/client_impl.go:115-133 | every window of every run spans at most WindowSize if and only if WindowSize is not negative and one of WindowSize and MaxUnackedMessages is at most 1 |
| ClientSchedule.WaitsOnlyWhenFull | src/github.com/cmu440/lsp/client_impl.go:115-133 | in every run, in plain numbers: a message waits only when the window spans WindowSize numbers or has MaxUnackedMessages, and it never has more |
| ClientSchedule.CAckCanLoseTimer | src/github.com/cmu440/lsp/client_impl.go:239-249 | a run to a state in which a cumulative acknowledgement costs a message its timer |
| ClientSchedule.AckedForGood | src/github.com/cmu440/lsp/client_impl.go:217-252 | a message once acknowledged never has a timer again and is never in the window or the queue again |
| ReferenceSchedule.TimersFollowSchedule | src/github.com/cmu440/lsp/lsp_reference.go:279-296 | in every run of a link each countdown is where the schedule puts it |
| ReferenceSchedule.WaitsOnlyWhenFull | src/github.com/cmu440/lsp/lsp_reference.go:244-271 | in every run, in plain numbers: a payload waits only when its number lies WindowSize or more past a pending one, or when MaxUnackedMessages are pending |
| ReferenceSchedule.RetransmittedOnSchedule | src/github.com/cmu440/lsp/lsp_reference.go:279-306 | an epoch with a live peer sends again exactly the pending payloads whose age the closed form names, each under its number, and one with a lost peer none |
| ReferenceSchedule.CountersMeanSilence | src/github.com/cmu440/lsp/lsp_reference.go:105-167 | the peer counts as lost exactly after EpochLimit epochs in which nothing arrived, and a heartbeat goes out exactly when no data message, damaged or not, and no connection request reached the link since the epoch before |
| Reference.AlwaysZero | src/github.com/cmu440/lsp/lsp_reference.go:398-404 | the helper returns 0 for every argument |
| Reference.LeastDecidesGate | src/github.com/cmu440/lsp/lsp_reference.go:252-255 | looking at the least pending number decides the gate for all of them |
| Reference.ToSendMoves | src/github.com/cmu440/lsp/lsp_reference.go:244-271 | the oldest payloads become pending within one window and the limit, and it stops only at a closed gate |
| Reference.Link.LeastPending | src/github.com/cmu440/lsp/lsp_reference.go:245-250 | the least of the pending numbers and the front, whatever the iteration order |
| Reference.Link.SendQueued | src/github.com/cmu440/lsp/lsp_reference.go:244-271 | the new state and what is transmitted |
| Reference.Link.HandleWrite | src/github.com/cmu440/lsp/lsp_reference.go:140-150 | the new state and what is transmitted |
| Reference.Link.HandleAck | src/github.com/cmu440/lsp/lsp_reference.go:213-219 | the new state and what is transmitted |
| Reference.Link.RemoveThrough | src/github.com/cmu440/lsp/lsp_reference.go:231-237 | the loop removes exactly the numbers up to the acknowledged one, and says whether there were any |
| Reference.Link.HandleCAck | src/github.com/cmu440/lsp/lsp_reference.go:221-241 | the new state and what is transmitted |
| Reference.Link.HandleData | src/github.com/cmu440/lsp/lsp_reference.go:152-200 | hears every message; drops without acknowledgement what is too far ahead or does not fit its checksum, stores the rest and drains the run |
| Reference.Link.HandleTick | src/github.com/cmu440/lsp/lsp_reference.go:279-306 | retransmission and heartbeat of an epoch |
| ReferenceRuns.QueuedIsSent | src/github.com/cmu440/lsp/lsp_reference.go:244-271 | whatever is transmitted is the next of what was written and lies in the receiver's window |
| ReferenceRuns.RunIsDrained | src/github.com/cmu440/lsp/lsp_reference.go:190-199 | the drain loop hands over the whole contiguous run and nothing else |
| ReferenceRuns.MovesKeepInv | src/github.com/cmu440/lsp/lsp_reference.go:140-306 | every action of either end keeps both directions coupled |
| ReferenceRuns.RunsAreFifo | src/github.com/cmu440/lsp/lsp_reference.go:140-200 | first in, first out, and nothing lost, in both directions of every run |
| ReferenceRuns.WindowsAgree | src/github.com/cmu440/lsp/lsp_reference.go:174-176 | no message of the peer is ever too far ahead; the least pending number is at most the expected one; the pending numbers fit into one window and the limit |
| ReferenceRuns.WindowsMoveUp | src/github.com/cmu440/lsp/lsp_reference.go:190-250 | at either end the least pending number and the expected number never fall, between any two states of a run |
| Mining.Process | src/github.com/cmu440/bitcoin/miner/miner.go:80-89 | the first nonce of the range with the least hash; from the largest nonce, where the first addition wraps, the least over all that the loop visits |
| Mining.Split | src/github.com/cmu440/bitcoin/server/server.go:306-312 | the loop on 64-bit numbers makes the jobs of every range on which it ends, wrapping around where it does |
| Mining.StopsIff | src/github.com/cmu440/bitcoin/server/server.go:306-312 | it ends if and only if a number from Upper to the largest has the residue of Lower modulo 16 |
| Mining.JobsAreChunks | src/github.com/cmu440/bitcoin/server/server.go:306-312 | more than one chunk below 2^64 it always ends and the jobs are the chunks of the range |
| Mining.ChunksAscend | src/github.com/cmu440/bitcoin/server/server.go:306-312 | every job lies in the range, is no larger than the chunk size, and starts after the one before |
| Mining.ChunksCover | src/github.com/cmu440/bitcoin/server/server.go:306-312 | every nonce of the range is in some job |
| Mining.ChunksCount | src/github.com/cmu440/bitcoin/server/server.go:306-312 | there are as few jobs as that size allows |
| Mining.WiderMeansMoreChunks | src/github.com/cmu440/bitcoin/server/server.go:306-312 | a request for no more nonces has no more jobs, which is how fairness compares requests |
| Mining.LeastOfMinima | src/github.com/cmu440/bitcoin/server/server.go:337-340 | any least result of all jobs is the minimum of the whole range |
| Scheduling.Scheduler.FindByRequestId | src/github.com/cmu440/bitcoin/server/server.go:93-100 | the index of the request, or -1 |
| Scheduling.Scheduler.RemoveRequest | src/github.com/cmu440/bitcoin/server/server.go:236-243 | the new state |
| Scheduling.Scheduler.HandleReassign | src/github.com/cmu440/bitcoin/server/server.go:259-273 | the job goes back to its request and the list is sorted; nothing changes when the request is gone |
| Scheduling.Scheduler.FindClient | src/github.com/cmu440/bitcoin/server/server.go:291-300 | some request of the client, or -1 when there is none |
| Scheduling.Scheduler.HandleLost | src/github.com/cmu440/bitcoin/server/server.go:182-203 | a lost connection is that of a free miner, of a busy one, or of a client, tried in this order |
| Scheduling.Scheduler.HandleRequest | src/github.com/cmu440/bitcoin/server/server.go:302-315 | for every range on which the loop ends the request is appended, unsorted, with all its jobs |
| Scheduling.Scheduler.HandleResult | src/github.com/cmu440/bitcoin/server/server.go:317-345 | the result is recorded and the miner freed, and the last one is answered and removes the request |
| Scheduling.Scheduler.TryDispatch | src/github.com/cmu440/bitcoin/server/server.go:347-376 | the first job of the head goes to the miner that waited longest |
| MiningRuns.JobIsDispatched | src/github.com/cmu440/bitcoin/server/server.go:347-376 | dispatching keeps the accounts; no two miners have the same job |
| MiningRuns.JobComesBack | src/github.com/cmu440/bitcoin/server/server.go:259-273 | the loss of a busy miner keeps the accounts |
| MiningRuns.EventKeepsJobs | src/github.com/cmu440/bitcoin/server/server.go:249-376 | remaining, in flight and done are together exactly the jobs of each live request, with one genuine result per job done; list and table have the same ids; free miners are distinct and not busy |
| MiningRuns.AnswerIsMinimum | src/github.com/cmu440/bitcoin/server/server.go:334-341 | the answer to a completed request is the minimum of its whole range |
| MiningRuns.EventKeepsAnswers | src/github.com/cmu440/bitcoin/server/server.go:249-376 | every request is live, withdrawn or answered, one of these only, and answered once |
| MiningRuns.AnswersAreBruteForce | src/github.com/cmu440/bitcoin/server/server.go:259-345 | in every run each answer goes to its client and has the hash that one search of the whole range returns |
| MiningRuns.LiveRequestHasWork | src/github.com/cmu440/bitcoin/server/server.go:334-345 | in every state of a run a live request has a job remaining or in flight |
| MiningRuns.NeverStuck | src/github.com/cmu440/bitcoin/server/server.go:347-359 | in every state of a run with a miner there and none busy, a job can be dispatched or the list is empty |
| MiningRuns.SortIsTheOnlyOne | src/github.com/cmu440/bitcoin/server/server.go:76-91 | whatever correct algorithm sorts the request list, the result is the one of the model |
| MiningRuns.WorkRunsOut | src/github.com/cmu440/bitcoin/server/server.go:317-376 | a stretch of dispatches and live results is no longer than twice the jobs remaining plus the jobs in flight |
| MiningMiners.MinersAreAccountedFor | src/github.com/cmu440/bitcoin/server/server.go:249-376 | in every run free miners are those that joined, have not been lost and do not work; every miner that joined and was not lost is free or works; and each dispatch gives the first job of the first request to the first of the free miners, with its own message |
| MiningMiners.LossTakesAway | src/github.com/cmu440/bitcoin/server/server.go:182-300 | after the loss of a connection no free miner has its id, and no busy one unless its request is gone; no other miner stops being free; a request of the lost client, and of no other, is withdrawn if it has one |
| MiningMiners.NoMinerOvertakes | src/github.com/cmu440/bitcoin/server/server.go:249-376 | while a miner has been free since before another one, the other is given no job |
| MiningOrder.EventKeepsHeadOnly | src/github.com/cmu440/bitcoin/server/server.go:78-91 | at most one live request has no jobs left to dispatch, and it heads the list |
| MiningOrder.NoJobOutOfTurn | src/github.com/cmu440/bitcoin/server/server.go:78-91 | while an earlier request that came with no more jobs is live, no job of the later one is dispatched, losses or not |
| MiningOrder.EarlierIsAnsweredFirst | src/github.com/cmu440/bitcoin/server/server.go:81-86 | answers come in the order of arrival among requests that came with no more jobs |
| MiningOrder.ShortOvertakesLong | src/github.com/cmu440/bitcoin/server/server.go:88-90 | once a request arrives with fewer jobs than a longer one has left, less one, at most one further job of the longer one is dispatched while both are live |

## Left out

- The handshake: runs start with established connections, in the state that `ClientSide.DialedIsEstablished` derives, with an initial number that is not negative and an agreed id; before that, the client receives nothing but the acknowledgement of its request. The server acknowledges a repeated request with the next id instead of the one assigned; the model delivers that acknowledgement to the client as one below all data.
- A repeated request that arrives after its connection has ended opens a second connection for the same client; the runs of `LspSystem` have repeated requests only while the connection is live.
- LspSystem.RunKeepsInv: data and CloseConn name live connections, because for others the code stops at a nil map or a nil dereference; so do a cumulative acknowledgement while a pending CloseConn names a connection that an epoch has ended, and the epoch of a client that has lost a timer.
- LspSystem.WindowsAreSound: for connections whose cumulative acknowledgements were in step only; the others are what `ServerSide.CAckKeepsSenderIff` is about.
- ServerClosing.CloseConnIsRemembered: as LspSystem.WindowsAreSound; so are ServerClosing.CloseReleasedIff and ServerClosing.CloseIdDanglesIff.
- TableRuns.RunStaysCoherent: as LspSystem.RunKeepsInv for the events of the server, and cumulative acknowledgements name live connections, since others break the property (`ConnectionTable.CAckKeepsKeysIff`); in the epoch the two loops over ages and heartbeats are modelled as a whole, since their iterations are independent.
- ClientSchedule.TimersFollowSchedule: runs contain cumulative acknowledgements only under the condition of `ClientSide.CAckKeepsSenderIff`.
- The ends of the event loops: after Close is released, or the client has given up, the code stops; the runs of `LspSystem` may go on, so what they guarantee holds with and without that.
- Several CloseConn calls at once: there is one slot for the id, as in the code, and nothing is claimed about an id that is overwritten.
- ClientClosing.ReleasedWhenDelivered: with a message in the window it promises nothing of what was written, because the code does not ask for the window (`ClientClosing.ReleasedTooSoon`).
- Read and Write calls that return errors, and the channels that carry requests between goroutines: each arm is one atomic step.
- UDP, JSON, addresses and real time: a packet is its message, an address an opaque string, an epoch one event. Packets whose payload exceeds the receive buffer never arrive.
- lspnet's middlebox: the cumulative acknowledgements it makes stand for acknowledgements sent.
- lspnet's shorten and lengthen branches test the parser's error the wrong way round, so payloads that are not numbers are replaced by a scaled zero; the model follows the code.
- Sends of the same message twice, drop rates and sniffing: the network may do anything with what was sent, so rates do not matter.
- Class ServerLoop.Server keeps one map of records where the program has eight maps; the eight maps are modelled on values in `ConnectionTable.dfy`.
- The linked lists `readList` and `outOfOrderList` are sequences; aliasing of Go slices is not modelled, every slice having one owner.
- lsp_reference.go beyond its link object (the client and server around it), its Close flag, and its connection request.
- SHA-256: the hash is any function of message and nonce.
- Nonce ranges within one chunk of 2^64 in the runs of the mining server: their jobs wrap around (`Mining.Jobs`), so an answer may lie outside the range. The loop of `process` never ends when Upper is the largest number.
- Mining.Process: the result's Lower and Upper fields and sending it are left out.
- MiningRuns.AnswersAreBruteForce: each miner joins once, a range is not empty, and a result comes from a busy miner that searched what it was last sent; the server checks none of these (`Scheduling.OnResult` books the result of a miner that is not busy on request 0, as the code does).
- Which of several results with the least hash is sent depends on Go's sort, which is not stable; `Mining.LeastOfMinima` holds for any of them.
- Several requests of one client, of which a loss withdraws an arbitrary one, as in the code; a miner whose request is gone stays busy for good.
- The reads of the miner lists by the reading goroutine while the scheduler changes them: a lost connection is classified and handled in one step.
- The LSP and bitcoin clients for the command line, pretty printers and test code.
