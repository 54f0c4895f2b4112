# UDTP: its control protocol, modelled and proved

UDTP moves files between a HOST and its PEERs: packets on a TCP connection
agree on settings, transfers and thread counts, and threads on UDP sockets
carry the chunks of a file into queues that other threads empty. This project
models that control logic and proves what holds over every run of it, for any
number of endpoints, exchanges and threads. `dafny verify dfyconfig.toml`
verifies all of it.

## How it is built

Each part has an imperative half and a state machine. The imperative half is
the classes of the program (`UDTPFile`, `UDTPHeader`, `UDTPPeer`, `UDTP`,
`UDTPAcknowledge`, `UDTPHandshake`, the listen loop, the process queue) with
their fields, loops and in-place updates; every method is proved against a
function of the old state. The state machine interleaves those functions in
every order, and the theorems are about its runs.

The program contradicts its own comments in several places. Each such place in
the table below is one Boolean of a `Repairs` or `Options` record or of the
member that models it. All of them false is the text as it stands
(`AS_WRITTEN`), a true one is what the comment beside the line asks for. The
main theorems then say of each property **with exactly which repairs it holds
in every run**; the direction that fails comes with a concrete run. With all of
them false the same theorems decide the property for the program as it is. A
few results are stated for repaired code only, and their `requires` says so:
`RemovalsNeverFail`, `SustainedReports`, `EveryHandshakeEnds`, `ThreadLimit` (that the bound of
`BoundNeeds` is reached), and the consequences of a theorem that has its exact
repairs (`EndpointIDsAreDistinct`, `NegotiatedFilesAreFound`,
`WorkEndsComplete`, `EveryFileFinishes`).

| repair | the text | what was meant |
|---|---|---|
| `Transfer.idBeforeUnpack` | UDTPHeader.cpp:123-124 copies the header into the file before the header has its id | the file carries the new id |
| `Transfer.keepOnPack` | UDTPHeader.cpp:73-74 packs a file that has no id and no type over the header | the header keeps both |
| `Transfer.copyOnConfirm` | UDTPHeader.cpp:99-104 never copies the id and type into the new file | the file takes them from the header |
| `Transfer.approveOrigin` | UDTPHeader.cpp:140-144 starts a file that is not approved, so it stays idle | the file is approved first |
| `Transfer.activeBeforeThreads` | UDTPFile.cpp:139-144 adds threads before it sets the flag that adding asks for | the flag comes first |
| `caching` (`Lookup`) | UDTPPeer.cpp:180-181 has the copy after the return | a file found late is kept in the own list |
| `correct` (`Connections`) | UDTP.cpp:309-316 erases positions that earlier erases have shifted | each is corrected by the erases before it |
| `Acknowledge.setCode` | UDTPAcknowledge.h:36 assigns its own argument | the member changes |
| `Acknowledge.keepAnswer` | UDTPAcknowledge.cpp:74 and 97 overwrite every answer with Rejected | the answer stays |
| `Acknowledge.noAddOnRemoval` | UDTPAcknowledge.cpp:104 adds a thread when a removal was approved | nothing is added |
| `Acknowledge.stopAtZero` | UDTPAcknowledge.cpp:35-45 sends the report back unchanged when there is no thread to remove | it stops |
| `Acknowledge.stopOnAnswer` | UDTPAcknowledge.cpp:113 asks to send an answer back | an answer ends the exchange |
| `Acknowledge.percent` | UDTPAcknowledge.cpp:34 divides without the factor 100 | a percentage |
| `Acknowledge.queued` | UDTPPeer.cpp:51-65 never pushes the two new threads onto their queues | they are pushed |
| `Handshake.wireCarriesCode` | UDTPHandshake.cpp:22-38 puts the code into the data for `ResponseStart` only | the data always carries the code |
| `gateOnRespond`, one gate for all packets (`Listen.Repairs`) | UDTP.cpp:291 and 375 test any of three bits, of which pack and unpack set two | only the answer of `respond` decides |
| `FileThread.byReference` | UDTPFile.h:73-75 returns the queue by value | the loop works on the queue itself |
| `FileThread.popAlways` | UDTPFile.cpp:203 pops only in the branch for chunks that are not DONE | every chunk is popped |
| `FileThread.setStatus` | UDTPFile.cpp:197 reads the status | it is set DONE |
| `popped` (`FileThread.Removed`) | UDTPFile.cpp:96-102 cancels a file thread and leaves it in the queue | it leaves the queue |
| `Pipeline.started` | UDTPPeer.cpp:59 starts `flowThread` a second time, so no process thread ever runs | `processThread` runs |
| `repaired` (`ChunkCount`) | UDTPFile.cpp:227-230 narrows the size and takes the remainder of the quotient | the remainder of the whole size |

`Pipeline.Options` carries the three `FileThread` repairs as its field `loop`,
and beside them `locked`: whether a turn of that loop is one step. The text has
no lock, and none is asked for, but the theorem about the pipeline needs to say
whether there is one.

## What is proved

* **Negotiation.** In every interleaving of any number of pushes and pulls the
  receiving side of a transfer has started before the sending side exactly when
  a Pull approval keeps its type or a pushing side never starts at all
  (`IncomingIsAlwaysFirst`; the text is in the second case, since a pushing
  side is never approved). An exchange that was ever approved ends with exactly
  one record on each side, with the same id, the type that was asked for, one
  approver and opposite directions, and one that was not ends with none: in
  every run, exactly with two repairs for a push and two for a pull
  (`RecordsAgree`). How a push ends is decided when its request is taken, for
  every choice of repairs (`PushEnds`): for the text it ends well exactly when
  the responder had the file already (`UnapprovedPush`). What a pull comes to is
  decided by what the new file holds at its confirmation and at its approval
  (`ConfirmedPull`, `MisreadApproval`), and until then every packet and record of
  a push or a pull has the numbers of the file that is sent (`PushKeepsNumbers`,
  `PullGoesOn`). In every run of at most 65535 requests
  ids are nonzero, from the HOST's counter, and shared exactly within an
  exchange, exactly with three repairs (`TransferIDsAreUnique`); in the text's
  runs of pushes, exactly when no push of a PEER was recorded (`UniqueExactly`).
  So a peer's own search and the endpoint's search find the same file
  (`NegotiatedFilesAreFound`). With ids that repeat, `SearchesAgreeExactly` says
  when they do.
* **Connections.** Over every run of accepts, hang-ups, rejections and packets
  the poll vector and the peer list stay parallel, slot 0 stays the endpoint,
  and a stamped packet reaches the connection it was stamped for or nobody. The
  drain as written erases position p_j + j for its j-th entry; a pass removes
  the right connections in every run exactly when the drain is corrected, and a
  single pass as written exactly when at most one connection hung up.
* **Flow threads.** In every reachable state no side has taken a thread from an
  empty queue, and the PEER is ahead of the HOST by exactly the approved
  additions and the removal requests in flight and the additions the HOST
  missed, exactly with seven repairs or where no thread is allowed at all
  (`ThreadsAreBalanced`, for each configuration). With at most k additions open
  the count stays within most - 1 + k exactly with fewer repairs, and without
  one of those it has no bound under any configuration that allows a thread
  (`BoundNeeds`); the bound is tight, so the configured maximum holds exactly
  for k = 1 (`ThreadLimit`).
* **Handshake.** A PEER has its bit only if the HOST set it for that
  connection, only for settings the HOST accepts; a rejected connection is
  frozen. When the wire carries the code the outcome is decided by the settings
  alone, and repaired every handshake ends; when it does not, none is ever over.
* **Termination of talk.** For every choice of repairs `BagsSettle` says exactly
  which bags of control packets come to rest, with the sum of the ranks as the
  least bound; loud ones end as well where their senders have been rejected. The text settles on headers and on handshakes with a foreign code, and
  on no bag with anything else; every bag settles exactly with five repairs.
* **Chunks.** No wakeup is lost for any number of flow and process threads, and
  whatever the file threads do. Every chunk a file accepted is queued or DONE,
  in every run, exactly under a condition that the text meets
  (`AcceptedChunksAreKept`). A pipeline left to itself stops, from every
  reachable state and in every order, with exactly the received chunks DONE, if
  and only if process threads are started, the file threads' loop has its three
  repairs, and there is one file thread, or more and a lock
  (`PipelineFinishes`); as written, exactly when nothing was received and no
  thread removed (`WithoutProcessThreads`). With any number of files the
  pipeline is, seen from each of them, the pipeline of that file (`RunIsSeen`),
  so all this holds file by file. One loop alone ends exactly on the queues that
  `EndsExactly` names. Status bytes depend on the set of arrivals only; the
  whine scan follows the completion scan; resending ends after exactly as many
  chunks as were missing.

## Model

| member | source | states |
|---|---|---|
| Protocol.Resends | UDTP.cpp:285-293 | a packet goes back when respond asks for it, or, as written, also when unpack or pack said true |
| Transfer.GetThreadType | UDTPFile.cpp:117-124 | a side sends exactly when it approved a pull or asked for a push |
| Transfer.PushRecordKeepsRequestID | UDTPHeader.cpp:123-130 | as written the responder's record carries the answered id exactly when the request had one already, or the counter has wrapped to 0 |
| Transfer.FileIDsRepeatAtWrap | UDTP.h:122-125 | two allocations share an id exactly when they are a multiple of 65536 apart; the first 65535 are distinct and nonzero |
| Transfer.UDTPFile.constructor | UDTPFile.cpp:9-32 | a new file is not approved and not active, and its id and type are whatever the memory holds |
| Transfer.ThreadsAfter | UDTPFile.cpp:81-92 | adding threads one by one never passes the most there may be, adds all that fit, and takes none away |
| Transfer.UDTPFile.UnpackFromHeader | UDTPFile.cpp:55-63 | the file takes chunks, size, id and type from the header and nothing else changes |
| Transfer.UDTPFile.PackToHeader | UDTPFile.cpp:64-70 | the header takes chunks, size, id and type from the file, its code and path stay |
| Transfer.UDTPFile.AddFileThread | UDTPFile.cpp:81-92 | one thread more, only for an active file and only below the configured most |
| Transfer.UDTPFile.EmptyAllChunkStatus | UDTPFile.cpp:105-115 | one byte for each chunk, no bit on, and a counter of 0 that is right |
| Transfer.UDTPFile.BeginFileProcessing | UDTPFile.cpp:125-146 | fails without a trace unless approved, free of errors and given its semaphore; else active, bytes clear, semaphore by direction, and the threads that the order of the lines allows |
| Transfer.UDTPFile.AddIncomingChunk | UDTPFile.h:65-72 | an active file queues the chunk and posts once, an inactive one refuses and changes nothing |
| Transfer.UDTPFile.SetChunkStatus | UDTPFile.h:99-103 | one more bit of one byte, and the counter grows on DONE even when the bit was on |
| Transfer.UDTPFile.SetAllEmptyChunksToWhine | UDTPFile.cpp:154-162 | exactly the bytes that are neither DONE nor WHINE change, the counter stays, the answer is -1 |
| Transfer.UDTPFile.GetChunksWhine | UDTPFile.cpp:164-171 | the least chunk that whines and is not DONE, or -1 |
| Transfer.UDTPFile.VerifyCompletion | UDTPFile.cpp:172-181 | the least chunk that is not DONE, or -1, and only then the file becomes inactive |
| Transfer.UDTP.GetNextFileID | UDTP.h:122-125 | the counter grows by one and its low 16 bits are handed out |
| Transfer.UDTP.AddFileToList | UDTP.cpp:442-445 | the file stands at the end of the list |
| Transfer.UDTP.GetFileWithID | UDTP.cpp:434-441 | the first file with the id, or none |
| Transfer.UDTPPeer.StartFile | UDTPPeer.cpp:68-73 | the file joins both lists of the peer whatever happens, and is started if it is approved, has no error and gets its semaphore |
| Transfer.UDTPPeer.SearchFileByID | UDTPPeer.cpp:169-184 | own list first, then the endpoint's; with caching a file found only there joins the own list |
| Transfer.UDTPHeader.RespondTo | UDTPHeader.cpp:54-150 | endpoint, header and answer change as the specification says in every branch, and the peer's lists grow by the files the endpoint's list grew by |
| Transfer.UDTPHeader.PullNone | UDTPHeader.cpp:60-79 | not found, or approved with a HOST id and the size of the local file |
| Transfer.UDTPHeader.PullApproved | UDTPHeader.cpp:85-96 | the puller records and starts its file before it confirms |
| Transfer.UDTPHeader.PullConfirm | UDTPHeader.cpp:97-106 | the approver records and starts its file and ends the exchange |
| Transfer.UDTPHeader.ConfirmedFile | UDTPHeader.cpp:99-102 | the approved file of a confirmed pull: numbers of the local file, id and type of the header or, as written, unset |
| Transfer.UDTPHeader.PushNone | UDTPHeader.cpp:111-132 | exists already, or recorded, started and approved |
| Transfer.UDTPHeader.PushApproved | UDTPHeader.cpp:138-146 | the pusher records its file, which starts only when it is approved |
| Transfer.UDTPHeader.PrepareForPush | UDTPHeader.cpp:121-127 | which id the new file carries for either order of copying and allocating |
| NegotiationRuns.PhaseStep | UDTPHeader.cpp:54-147 | one response moves its exchange to the next phase: who holds which record, and what is in flight |
| NegotiationRuns.DeliverOther | UDTPHeader.cpp:54-147 | a delivery changes no message and no record of any other exchange |
| NegotiationRuns.RunKeepsInv | UDTPHeader.cpp:54-147 | every exchange of every run is in one of its phases, with or without the repairs |
| NegotiationRuns.MisreadPull | UDTPHeader.cpp:73-75 | a run in which the overwritten type turns a pull into a push: the puller alone holds a record, as the sender |
| NegotiationRuns.IncomingIsAlwaysFirst | UDTPHeader.cpp:85-106 | in every run the receiving side has started before the sending side, exactly when a Pull approval keeps its type or a pushing side never starts |
| NegotiationAgreement.PushRun | UDTPHeader.cpp:111-146 | a run of a push by a PEER, with the records it leaves for every choice of repairs |
| NegotiationAgreement.PullRun | UDTPHeader.cpp:97-106 | a run of a pull in which the confirming side records another id and type |
| NegotiationAgreement.GrantIsKept | UDTPHeader.cpp:54-147 | for every choice of repairs: an exchange that has an approval, a confirmation or a record never loses all of them |
| NegotiationAgreement.RecordsAgree | UDTPHeader.cpp:54-147 | in every run an exchange that was ever approved ends with exactly one record on each side, alike in id and type (and, of a push, in chunks and size), opposite in role and direction, and any other ends with none; exactly with the two repairs of its type |
| PushOutcome.PushEnds | UDTPHeader.cpp:111-146 | for every choice of repairs and whatever happens later: once a push is over nobody holds a record exactly when the responder had the file at the request, and the records agree exactly when it had not, the pusher's file is approved, and the request carried an id or the file takes the new one |
| PushOutcome.UnapprovedPush | UDTPHeader.cpp:111-146 | as written a push that is over has ended well exactly when the responder had the file already |
| PushOutcome.RequestIsSent | UDTP.cpp:449-482 | a request that is accepted puts exactly one packet in flight, with the numbers of the local file for a push and none for a pull, and an id from the HOST's own counter or 0 from a PEER; any other changes nothing |
| PushOutcome.PushKeepsNumbers | UDTPHeader.cpp:111-146 | whoever asks for a push and whatever happens later, every request and approval of it in flight and every record of it has the chunks and size of the file that is pushed |
| PullOutcome.PullGoesOn | UDTPHeader.cpp:57-96 | for every choice of repairs, whoever asked and whatever happens later: without the file nobody ever records the pull; with it the approval, the confirmation and the puller's one record hold the chunks and size of the responder's file, and the id and type of the request or a new id, which as written are what an unset file holds |
| NegotiationAgreement.ConfirmedPull | UDTPHeader.cpp:97-106 | a confirmation ends its pull in agreement exactly when the file copies the header's id and type or happens to hold them, and of one file exactly when the local file is still what the header says |
| NegotiationAgreement.MisreadApproval | UDTPHeader.cpp:73-96 | an approval of a pull ends the exchange with one record alone exactly when its type was overwritten by Push |
| TransferIDs.TransferIDsAreUnique | UDTPHeader.cpp:73-124 | in every run of at most 65535 requests ids are nonzero and from the HOST's counter, two records share one exactly when they belong to one exchange, and a PEER's counter is never used; exactly with three repairs |
| TransferIDs.UniqueExactly | UDTPHeader.cpp:121-127 | in a run of at most 65535 requests without pulls, or with their two repairs: the ids are unique exactly when the new file takes the new id or no push that a PEER asked for was recorded |
| TransferIDs.EndpointIDsAreDistinct | UDTP.cpp:434-445 | so, with those three, the files of one endpoint all have different ids |
| TransferIDs.OneRecordEach | UDTPHeader.cpp:85-146 | no endpoint records an exchange twice |
| Lookup.SearchesAgree | UDTPPeer.cpp:169-184 | after any starts and searches, caching or not, a peer's search gives what the endpoint's search gives when ids are distinct |
| Lookup.NegotiatedFilesAreFound | UDTPPeer.cpp:68-73 | the files that a repaired run of negotiations leaves are found alike by both searches |
| Lookup.OverallFinds | UDTP.cpp:434-441 | the endpoint finds the file of the first start with the id |
| Lookup.OwnFinds | UDTPPeer.cpp:169-181 | a peer's own list holds first the file of the first action that filled it: a start with it, or a search that copied |
| Lookup.SearchesAgreeExactly | UDTPPeer.cpp:169-184 | after any starts and searches, caching or not, and with ids that repeat: the two agree exactly when the own list was first filled by a copy, not at all, or by a start of the first file of all with that id |
| Lookup.SearchAddsOnce | UDTPPeer.cpp:169-184 | a search changes at most the peer's own list, by the one file it found, and to search twice is to search once |
| Connections.CorrectedDrainKeeps | UDTP.cpp:309-316 | erasing ascending positions, each corrected for the shift, keeps exactly the others in order |
| Connections.UncorrectedDrain | UDTP.cpp:309-316 | as written entry j erases original position p_j + j, and runs past the end exactly when one of those does not exist |
| Connections.UncorrectedDrainIsRight | UDTP.cpp:309-316 | the drain as written is right exactly for at most one entry |
| Connections.PassInv | UDTP.cpp:301-316 | a pass keeps the table parallel, ordered and with slot 0 in place; corrected it never fails |
| Connections.PassLeavesTheOthers | UDTP.cpp:239-316 | a pass leaves exactly the connections that did not hang up, if and only if corrected or at most one did |
| Connections.UniqueIDsRepeatAtWrap | UDTP.cpp:223-226 | two connections get one unique id exactly when they are a multiple of 2^32 apart |
| ConnectionRuns.ListenLoop.constructor | UDTP.cpp:186-190 | the table starts with the listening socket at slot 0 |
| ConnectionRuns.ListenLoop.AcceptPeer | UDTP.cpp:217-227 | both vectors grow by the new socket, which gets the next unique id |
| ConnectionRuns.ListenLoop.GetPeer | UDTP.cpp:139-146 | the peer at the position, or none past the end |
| ConnectionRuns.ListenLoop.RemovePeer | UDTP.cpp:148-161 | the one position is cut out, or nothing changes past the end |
| ConnectionRuns.ListenLoop.Scan | UDTP.cpp:239-308 | exactly the connections that hung up, from slot 1 on, are marked offline and queued in ascending order |
| ConnectionRuns.ListenLoop.DrainQueue | UDTP.cpp:309-316 | both vectors lose the queued positions in lockstep |
| ConnectionRuns.ListenLoop.ListenPass | UDTP.cpp:239-316 | scan and drain together are one pass of the state machine |
| ConnectionRuns.ListenLoop.SendTo | UDTPPeer.cpp:192-201 | a packet goes to the peer at its position only if the unique ids match |
| ConnectionRuns.TableStaysParallel | UDTP.cpp:216-227 | in every run the two vectors name the same sockets, slot 0 is self, the order is the order of accepts, and a corrected drain never fails |
| ConnectionRuns.FailureIsFinal | UDTP.cpp:309-316 | after a drain past the end nothing goes on, in any run |
| ConnectionRuns.OnlyCorrectedPassesAreRight | UDTP.cpp:301-316 | every pass of every run removes exactly what hung up, if and only if the drain is corrected |
| ConnectionRuns.StampedPacketsReachTheirOwn | UDTPPeer.cpp:192-196 | whatever was removed in between, a packet that goes out reaches the connection it was stamped for, before the counter wraps, and one congruent modulo 2^32 after |
| ConnectionRuns.StampedPacketsGoExactly | UDTP.cpp:279-293 | it goes out exactly when that connection still stands at the stamped position, and unique ids increase along the list |
| ConnectionRuns.SendGoesExactly | UDTPPeer.cpp:192-201 | before the counter wraps a send puts out exactly the stamped packet, to the very connection it came from, if that still stands at the stamped position, and nothing if not |
| ConnectionRuns.ReceiveStampsExactly | UDTP.cpp:246-282 | a packet is taken exactly from an online connection past slot 0, and its stamp is that connection's position and unique id |
| ConnectionRuns.AnswerAtOnce | UDTP.cpp:285-293 | a packet that is answered at once reaches the very connection it came from, wrapped counter or not |
| ConnectionRuns.ConnectionIsHeard | UDTP.cpp:217-227 | a new connection stands last, is online, and its packets are taken |
| ConnectionRuns.RejectedIsSilent | UDTP.cpp:246 | once a connection has been rejected, no packet of it is ever taken again in any run |
| Acknowledge.VerdictByCounts | UDTPAcknowledge.cpp:34-58 | the verdict as inequalities between counts: total, without overlap |
| Acknowledge.VerdictIsMonotone | UDTPAcknowledge.cpp:34-58 | more delivered packets never give a worse verdict |
| Acknowledge.PerfectReport | UDTPAcknowledge.cpp:34-46 | as written even a perfect report asks for fewer threads unless the critical percentage is 0; as a percentage it asks for more exactly when the limits lie within 100 |
| Acknowledge.ReportAnswer | UDTPAcknowledge.cpp:33-59 | which of three packets answers a report, by its verdict and the threads there are, and which report comes back unchanged |
| Acknowledge.AnswerTellsTruth | UDTPAcknowledge.cpp:68-100 | the answer to a request is Approved exactly when it was carried out, if it is set and kept |
| Acknowledge.OthersChangeNothing | UDTPAcknowledge.cpp:60-113 | no response changes what was counted, and every other packet leaves the threads alone and comes back, if at all, as it was |
| Acknowledge.RemovesIsLess | UDTPAcknowledge.cpp:35-96 | a response removes a thread exactly when the count falls |
| Acknowledge.FlowPeer.constructor | UDTPPeer.h:49-52 | no threads are counted or queued |
| Acknowledge.FlowPeer.AddThread | UDTPPeer.cpp:24-67 | an online peer with a socket counts one thread more, and queues it if it is to; the queues stay in step with the count, or empty |
| Acknowledge.FlowPeer.RemoveThread | UDTPPeer.cpp:74-96 | refuses at 0; fails exactly when a thread is counted and none is queued; else the oldest pair goes, the count falls and the semaphore is posted once |
| Acknowledge.UDTPAcknowledge.SetResponseCode | UDTPAcknowledge.h:36 | as written nothing changes |
| Acknowledge.UDTPAcknowledge.AnswerWith | UDTPAcknowledge.cpp:73-75 | the code after both assignments |
| Acknowledge.UDTPAcknowledge.RespondTo | UDTPAcknowledge.cpp:25-114 | packet, thread count and answer change as the specification says in every branch, unless it removes a thread and none is queued, and exactly then it fails |
| Acknowledge.UDTPAcknowledge.Report | UDTPAcknowledge.cpp:33-59 | the outcomes of a report, and exactly when it fails |
| AcknowledgeRuns.UpKeepsInv | UDTPAcknowledge.cpp:28-111 | what the HOST takes keeps the balance and the direction of every kind of packet |
| AcknowledgeRuns.DownKeepsInv | UDTPAcknowledge.cpp:68-111 | what the PEER takes keeps both as well |
| AcknowledgeRuns.FailureIsFinal | UDTPPeer.cpp:74-96 | a side fails exactly when it takes a packet that removes a thread where none is ever queued, and then nothing goes on |
| AcknowledgeRuns.AnswerLost | UDTPAcknowledge.cpp:72-77 | a run in which the PEER's addition is not reported |
| AcknowledgeRuns.AnswerEchoed | UDTPAcknowledge.cpp:79-113 | a run in which the answer comes back a second time and the balance breaks |
| AcknowledgeRuns.ReportBounced | UDTPAcknowledge.cpp:35-45 | a run in which a bounced report makes the PEER ask the HOST for a thread |
| AcknowledgeRuns.RemovalAdds | UDTPAcknowledge.cpp:102-105 | a run in which an approved removal leaves the HOST one thread ahead |
| AcknowledgeRuns.QueueBreaks | UDTPPeer.cpp:78-94 | a run in which a thread that was counted and never queued is removed |
| AcknowledgeRuns.ThreadsAreBalanced | UDTPAcknowledge.cpp:25-114 | under each configuration: in every reachable state no side has failed and PEER minus HOST is approved additions in flight plus removal requests in flight plus missed additions, exactly with the seven repairs or a maximum of 0 |
| AcknowledgeRuns.BalancedAsWritten | UDTPAcknowledge.cpp:25-114 | the text is balanced under exactly the configurations that allow no thread |
| AcknowledgeRuns.RemovalsNeverFail | UDTPPeer.cpp:74-76 | a removal request in flight always finds a thread, and at rest the counts differ by the missed additions only |
| LimitRuns.BoundNeeds | UDTPAcknowledge.cpp:46-82 | under each configuration and for each k: with at most k additions open, count plus open additions is at most most - 1 + k exactly with these repairs (three always, and two more if answers are kept) or a maximum of 0; otherwise every count is reached |
| LimitRuns.NoBoundAsWritten | UDTPAcknowledge.h:36 | the text reaches every count under every configuration that allows a thread |
| LimitRuns.AskedBack | UDTPAcknowledge.h:36 | runs to any count in which a request goes back and forth as it came |
| LimitRuns.AnsweredAgain | UDTPAcknowledge.cpp:79-113 | runs to any count in which an approval goes back and forth |
| LimitRuns.HostAsked | UDTPAcknowledge.cpp:35-45 | runs to any count in which bounced reports make the PEER ask the HOST |
| LimitRuns.RemovedThenAdded | UDTPAcknowledge.cpp:102-105 | runs to any count in which approved removals add threads |
| FlowLimit.ReachableByRuns | UDTPAcknowledge.cpp:25-114 | the states reached with at most k additions open are the ends of the runs that never have more |
| FlowLimit.ThreadLimit | UDTPAcknowledge.cpp:46-82 | repaired, the bound holds and is reached, and so the maximum holds exactly for k = 1 |
| FlowLimit.OneRound | UDTPAcknowledge.cpp:33-59 | a report and all it leads to moves both counts by at most one towards the verdict and leaves nothing in flight |
| FlowLimit.SustainedReports | UDTPAcknowledge.cpp:33-59 | n good rounds bring both counts to the lesser of start plus n and the maximum and leave a count above it alone, bad ones bring any count down by n or to 0 |
| Handshake.Peer.SetInitProcessComplete | UDTPPeer.h:62-65 | exactly this event is added to the mask |
| Handshake.Peer.CheckInitProcess | UDTPPeer.h:66-69 | whether the event is in the mask |
| Handshake.BitIsShift | UDTPPeer.h:30-38 | each event has the bit of its number |
| Handshake.UDTPHandshake.CompareSettings | UDTPHandshake.cpp:104-115 | true exactly for the same version and a chunk size no less than the least and no more than the most |
| Handshake.UDTPHandshake.Unpack | UDTPHandshake.cpp:43-71 | the code comes from the data, and for ResponseNone the sender's settings too |
| Handshake.UDTPHandshake.PackData | UDTPHandshake.cpp:18-41 | what the data holds afterwards for each code |
| Handshake.UDTPHandshake.RespondTo | UDTPHandshake.cpp:73-100 | whose bit is set, who goes offline, and the next code, for every code |
| Handshake.UDTPHandshake.Process | UDTP.cpp:285-293 | unpack, respond and pack together do what one step of the runs does, and the packet goes back accordingly |
| HandshakeRuns.UpKeepsInv | UDTPHandshake.cpp:79-89 | what the HOST takes moves its own connection to the next phase and no other |
| HandshakeRuns.DownKeepsInv | UDTPHandshake.cpp:74-99 | what a PEER takes does the same |
| HandshakeRuns.HandshakeAgreement | UDTPHandshake.cpp:73-115 | in every run a PEER's bit implies the HOST's; the HOST's implies its own version and a chunk size within its bounds; offline implies that one of the three fails |
| HandshakeRuns.HandshakeOutcome | UDTPHandshake.cpp:18-41 | with the code on the wire, what is over was decided by the settings alone; without it nothing is ever over or decided |
| HandshakeRuns.DeliveryLowers | UDTPHandshake.cpp:73-100 | repaired, every delivery leaves less to deliver |
| HandshakeRuns.EveryHandshakeEnds | UDTPHandshake.cpp:73-115 | repaired, from every reachable state everything in flight can be delivered within a bound, and then each connection is decided on both sides by version and bounds alone |
| HandshakeRuns.ConnectionStarts | UDTP.cpp:228-236 | a new connection is online and undecided, with one ResponseStart on its way |
| HandshakeRuns.RejectedStaysRejected | UDTP.cpp:246 | from any state a rejected connection keeps its entry, and the letters to it are always some of the earlier ones in their order: none is posted any more |
| Listen.QuietReplies | UDTP.cpp:254-293 | a message that is not loud is answered by one of lower rank that is not loud either, whatever the endpoint holds |
| Listen.LoudReplies | UDTP.cpp:254-293 | for every loud message there is an endpoint that answers it with a loud one |
| Listen.SparedRunsAreShort | UDTP.cpp:246-293 | a run whose loud messages all go to endpoints that rejected their senders is no longer than the sum of the ranks of its bag, whatever the bag |
| Listen.RejectedRunsAreShort | UDTP.cpp:246 | a run that goes to such endpoints alone is no longer than its bag |
| Listen.RunsAreShort | UDTP.cpp:254-293 | a run over a bag without loud messages is no longer than the sum of their ranks |
| Listen.BoundIsReached | UDTP.cpp:254-293 | and some run is as long as that |
| Listen.LoudRunsOn | UDTP.cpp:291-293 | a bag with a loud message has runs of every length |
| Listen.BagsSettle | UDTP.cpp:254-293 | for every choice of repairs a bag comes to rest exactly when it holds no loud message, and the sum of the ranks is then the least bound |
| Listen.BagsSettleAsWritten | UDTP.cpp:285-293 | the text settles exactly on bags of headers, unknown packets and handshakes whose code pack does not know |
| Listen.TalkingStops | UDTP.cpp:254-293 | every bag of control packets comes to rest exactly with the five repairs |
| ChunkStatus.With | UDTPFile.h:99-100 | OR-ing a code turns exactly that bit on |
| ChunkStatus.MaskIsShift | UDTPChunk.h:8-12 | each code has the bit of its number |
| ChunkStatus.LeastMissingFrom | UDTPFile.cpp:172-177 | the least chunk from there on that is not DONE, or -1 when all are |
| ChunkStatus.LeastWhiningFrom | UDTPFile.cpp:164-171 | the least chunk from there on that whines and is not DONE, or -1 |
| ChunkStatus.WhineUpToBits | UDTPFile.cpp:154-159 | of the chunks passed, those that are DONE or whine keep their byte and the others gain the one bit; all that follow keep theirs |
| ChunkStatus.ArrivalsAreASet | UDTPFile.cpp:193-197 | two arrival sequences with the same ids leave the same bytes and counter; no bit is cleared; a right counter stays right |
| ChunkStatus.UnguardedCounter | UDTPFile.h:99-103 | without the guard the counter is right exactly when no id repeats and none was DONE |
| ChunkStatus.WhineTracksCompletion | UDTPFile.cpp:154-181 | after the whine pass both scans report the same chunk, then and after any arrivals |
| ChunkStatus.ResendingEnds | UDTPFile.cpp:164-181 | resending what is reported ends after exactly as many chunks as were missing, and then the file is complete |
| FileThread.EndsExactly | UDTPFile.cpp:189-205 | for every choice of repairs, exactly which queues the inner loop empties: with the misplaced pop those without a chunk that is DONE or, once it sets the status, comes twice |
| FileThread.DrainEnds | UDTPFile.cpp:189-205 | it ends on every queue exactly when it works on the queue itself and pops every chunk, one turn a chunk |
| FileThread.EndingIsReached | UDTPFile.cpp:93-104 | the loop that ends a file is left exactly when removal pops, no thread is there, or an active file has its starting number |
| FileThread.DrainIncoming | UDTPFile.cpp:189-205 | the repaired loop empties the queue and leaves the bytes and counter that the arrivals one by one would |
| Pipeline.ProcessQueue.AddChunkToProcess | UDTPPeer.cpp:141-143 | the chunk joins the end of the queue |
| Pipeline.ProcessQueue.TakeIn | UDTPPeer.cpp:128-130 | a chunk queued, one packet counted, one post |
| Pipeline.ProcessQueue.GetNextChunk | UDTPPeer.h:144-150 | the front of the queue leaves it, or none of an empty one |
| Pipeline.StepKeepsQueue | UDTPPeer.cpp:84-151 | every step keeps queue plus removals equal to tokens, woken workers, pending posts and empty pops |
| Pipeline.StepKeepsReceived | UDTPPeer.cpp:149-160 | every step keeps first in, first out, and every taken chunk in a worker's hands or accepted by its file, unless that is unknown or over |
| Pipeline.HistoriesGrow | UDTPPeer.cpp:128-156 | a chunk is received exactly by a listening flow thread, taken exactly from the front by a woken process thread, and accepted exactly when it is handed to its file, known and still active |
| Pipeline.FileEnds | UDTPFile.cpp:172-181 | a file ends exactly at a completion scan that finds every chunk DONE |
| Pipeline.EndedFileIsClosed | UDTPFile.h:65-72 | a file that is over stays so and accepts nothing any more, in any run |
| Pipeline.ThreadsComeAndGo | UDTPPeer.cpp:49-96 | when a flow and a process thread stop, what adding a pair adds, and the token a removal posts |
| Pipeline.StoppedStays | UDTPPeer.cpp:102-149 | a stopped thread stays stopped in any run |
| PipelineRest.StepKeepsCover | UDTPFile.h:65-72 | whatever the loop does, every step keeps a token, a pending post or a busy file thread for a file queue that is not empty |
| PipelineRest.StepKeepsFile | UDTPFile.cpp:186-206 | with a loop that marks and turns that do not overlap every step keeps every accepted chunk queued or DONE, the counter right, and a file that is over complete |
| PipelineRest.StepLeavesUntouched | UDTPFile.cpp:189-205 | with no process thread, no file thread, or a loop that neither marks nor pops, every step leaves exactly the accepted chunks queued and nothing DONE |
| PipelineRest.NoLostWakeup | UDTPPeer.cpp:149-151 | for the text and every choice of repairs: in every reachable state each queued chunk has a token, a woken worker or a pending post, and empty pops are paid for by removals |
| PipelineRest.FileQueueIsCovered | UDTPFile.h:65-72 | for the text and every choice of repairs: in every reachable state a file queue that is not empty has a token, a pending post or a busy file thread |
| PipelineRuns.AcceptedChunksAreKept | UDTPFile.h:65-72 | in every run accepted chunks are queued or DONE and the counter is right, exactly when no process or no file thread is there, or the loop marks and turns do not overlap, or it neither marks nor pops |
| PipelineRuns.Forgotten | UDTPFile.cpp:195-203 | a run in which a chunk is popped and was never marked |
| PipelineRuns.CountedTwice | UDTPFile.cpp:193-197 | a run in which two file threads find the same chunk missing and count it twice |
| PipelineWork.StepLowers | UDTPPeer.cpp:149-165 | with a sound loop every step by which a thread works something off lowers the work that is left |
| PipelineWork.WorkIsBounded | UDTPPeer.cpp:149-165 | so such steps end, in every order, within the work there is |
| PipelineWork.WorkEndsComplete | UDTPFile.cpp:186-206 | from every reachable state with a sound loop work is bounded, and with process and file threads there, what has nothing left to do is complete |
| PipelineWork.WithoutProcessThreads | UDTPPeer.cpp:55-60 | as written exactly the pending posts are left to do, and the end is complete exactly when no chunk was received and no thread removed |
| PipelineFiles.MoveIsSeen | UDTPPeer.cpp:149-165 | with any number of files a move is, seen from each file, one step of that file's pipeline, or nothing when it concerns another file alone |
| PipelineFiles.MoveWhenSeen | UDTPPeer.cpp:149-165 | and a move can be made as soon as each file it concerns sees a step that can be done |
| PipelineFiles.RunIsSeen | UDTPPeer.cpp:149-165 | so every run is, seen from each file, a run of that file's pipeline |
| PipelineFiles.EveryFileIsKept | UDTPFile.h:65-72 | in every run with any number of files, for each of them: no lost wakeup, first in first out, a covered queue, and conservation under its condition |
| PipelineFiles.EndedFileStaysClosed | UDTPFile.h:65-72 | a file that is over stays so and accepts nothing any more, whatever the other files do |
| PipelineFiles.EveryFileFinishes | UDTPPeer.cpp:145-168 | with any number of files and a sound loop the whole stops within the sum of their work, and with process threads there every file is then complete |
| PipelineRuns.NobodyTakes | UDTPPeer.cpp:55-60 | a run that stops with a chunk nobody takes, since no process thread was started |
| PipelineRuns.SpinningNeverFinishes | UDTPFile.cpp:189-205 | a file thread that cannot get the front chunk off its queue never stops |
| PipelineRuns.NotMarked | UDTPFile.cpp:195-198 | a run that stops with a received chunk that was never set DONE |
| PipelineRuns.ChunkLost | UDTPFile.cpp:189-205 | a run of two file threads without a lock that pops a chunk nobody read and counts another twice |
| PipelineRuns.PipelineFinishes | UDTPPeer.cpp:145-168 | from every reachable state and in every order the pipeline stops by itself with exactly the received chunks DONE, if and only if process threads are started, the loop has its three repairs, and there is one file thread, or more and a lock |
| ChunkCount.RetrieveNumberOfChunks | UDTPFile.cpp:227-236 | repaired, the least number of chunks that hold the file; as written that number exactly for sizes of 16 bits whose quotient and size have remainders that are zero together |
| ChunkCount.CountIsLeast | UDTPFile.cpp:229-233 | the intended count is the least number of chunks that hold the file |
| ChunkCount.EveryByteHasItsChunk | UDTPFile.cpp:229-233 | every byte lies in exactly one chunk, which is below the count |
| ChunkCount.CountFits | UDTPFile.cpp:229-236 | the count fits 16 bits exactly up to 65535 full chunks |
| ChunkCount.CountAsWrittenIsRight | UDTPFile.cpp:227-233 | the text is right exactly for sizes of 16 bits whose quotient and size have remainders that are zero together |

## Left out

- Sockets, poll, accept, recv and send: delivery is a step. A packet may be taken from any position of a channel, so every first-in-first-out order is among the runs, and so are others.
- Threads as the operating system runs them: each runs as interleaved steps, pushes and pops are atomic, cancelling a thread and joining it are not modelled. A flow or process thread that is stopped is stopped between two turns of its loop.
- Raw buffers and memory layout: the handshake is carried as a record, and the empty pack and unpack of headers and acknowledges only by the Boolean they return.
- What C++ leaves undefined in the files that a header creates: UDTPHeader.cpp never calls `set_udtp` on them, so UDTPFile.cpp:139 and 83 read the number of threads through a `_myUDTP` that nothing has set, and UDTPFile.cpp:229 divides by a chunk size that nothing has set; the model has settings there, and takes the chunks of a local file as an input. A transfer type that nothing has set is Push or Pull in the model, where memory may hold neither.
- File contents: write_mmap, read_mmap, UDTPChunk and UDTPPath have no behaviour to model; writing a chunk always succeeds. Whether a file exists, its size and its chunks are inputs of each response.
- The loop of an OUTGOING file thread (UDTPFile.cpp:210-217), listenQueueThread, approve_pending_file and find_file_by_id have no body to speak of.
- send_file and get_file (UDTP.cpp:449-482): a transfer is begun as a step, with the existence condition and the id rule of those functions. The COMPLETE bit they ask for is never set by the program, and the type and response code, which they leave unset, are taken as what the function's name says and `ResponseNone`.
- A header that matches no branch falls off the end of `UDTPHeader::respond`, where C++ leaves the answer undefined: the model answers that nothing is sent back.
- The position guard of `send_to` is proved for packets that are sent later by looking up their position, which is what its message describes; the listen loop (UDTP.cpp:292) sends through the peer it has at hand.
- Which file thread is cancelled when one is removed, and what a cancelled thread was doing: only how many remain.
- Transfer.UDTPFile.VerifyCompletion: returns in the model even where the loop of `end_file_processing` would not; when it does is `FileThread.EndingIsReached`, and the file threads that loop cancels are not part of its contract.
- Transfer.UDTPHeader.RespondTo: the sem_init inside it succeeds (`BeginFileProcessing` itself has the failing case): on Linux it fails for values beyond the 16 bits of a chunk count only. Threads are counted, not created.
- The process threads of the pipeline are those of one peer, and the list of its files is fixed from the start (`PipelineFiles`; `Pipeline` itself is seen from one of them). Chunk ids are within their file. A file becomes inactive only by the completion scan, and its file threads then go on.
- PipelineRuns.PipelineFinishes: as written the second thread of a pair runs `flowThread` on a record of another class, which C++ leaves undefined; the model says that no process thread runs. With two file threads and no lock, a pop of a queue that another thread has emptied is undefined as well; there it changes nothing.
- Acknowledge.UDTPAcknowledge.RespondTo: a report is taken only when the local packet count is not 0, which is what the division demands; thread and packet counts are unbounded, so the 16 bits of the thread count and the 32 bits of the product by 100 do not wrap.
- Acknowledge.FlowPeer.RemoveThread: `front` of an empty queue is undefined in C++; the model records the failure and goes no further.
- FlowLimit.SustainedReports: the rounds follow one another, and every thread can be added.
- Address lookups, the setup's getters and setters, prompts, messages and memory management.
