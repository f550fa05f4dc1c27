# Atomic storage over erasure-coded and replicated servers

This project models the storage algorithms of COLAS and proves what they are for: SODAW, an atomic
read/write register whose value is erasure-coded over n servers, and ABD, its replicated counterpart. Each
protocol appears three times, and the three are tied together by proof:

- the **system**: a transition system with every server, every client and every message under way
  (`SodawSystem`, `AbdSystem`), over which the theorems about all runs are proved (`SodawTheorems`,
  `AbdTheorems`). A run is any sequence of enabled steps from the initial world, of any length, for any
  number of servers and clients;
- the **server code**: classes over string-keyed tables (`SodawServer`, `AbdServer`, over `ObjectStore` and
  `HistoryKeys`). Every handler is proved to do what the system's server does at that step;
- the **client code**: the polling loops (`SodawClient`, `AbdClient`). Every loop is proved to count
  messages as the system's client does and to stop where that client may finish its phase.

The remaining modules are the coding pipeline (`Coding`, joined to the SODAW theorems in `SodawCoding`) and
the text and arithmetic the protocols rest on (`Tags`, `TagText`, `ServerList`, `Base64`, `Checksum`, `Bits`).

How the system theorems are built: `SodawSpec` gives the four handlers that change a server and what each
keeps about its own server; `SodawInvariant` states the invariant of the whole system item by item;
`SodawServerSteps` and `SodawClientSteps` show that each kind of step keeps it; `SodawTheorems` draws the
conclusions. `SodawProgress` and `AbdProgress` add what a client and any majority of the servers can do when
everybody else has stopped: every write and every ABD read can be completed, every SODAW read can be brought to
its response or its exit. `Linearization` shows once, for both protocols, that tags which respect real time
give a sequential register history, by sorting the operations; `Histories` derives those conditions from
recorded invocations and responses. Writes that have a tag but have not returned are part of the linearized
history.

A SODAW read can also fail: a reader whose decoder rejects what it has collected exits. `SodawReads` says when
that happens. `SodawOutcomes` gives the exact condition on a reachable state for an operation under way to be able
to return, and `SodawExits` the exact condition for it to be able to end in the exit. `SodawUnregistration`
completes the picture at the servers: every element is announced, and notices from K servers, or the READ_COMPLETE of
a returned read, always end a registration. `SodawSessions` and `AbdSessions` follow whole operations: a write and then
a read can always be done, and the read returns what was written.

## What is assumed

- `strcmp` answers -1, 0 or 1. The callers compare its result with `== -1` (src/abd/abd_server.c:45) and
  `== 1` (src/utilities/algo_utils.c:218). The comment above `compare_tag_ptrs`
  (src/utilities/algo_utils.c:149-155) promises -1 for "less", but the code returns -2 there when the
  sequence numbers differ; the model follows the code, and `Tags.ComparisonsAgree` shows that no caller can
  tell the difference.
- There is one object in the SODAW system, because the reader tables are keyed by reader alone
  (src/sodaw/sodaw_server.c:214-222).
- Client ids are distinct; a client runs one operation at a time and its operation numbers increase.
- A request reaches a server at most once and a response a client at most once. READ_DISPERSE may arrive
  any number of times. Any message may be delayed without bound, overtaken or lost.
- A handler runs without interruption, as there is one worker (src/baseprocess/server.c:52-54).
- A client may stop at any point and never take another step.
- `create_object` stores the initial SODAW object without encoding it
  (src/baseprocess/server.c:198-202), so reading the initial tag promises no value and may fail to decode;
  linearizability holds with that value left open. Where a theorem needs it, the initial data is the same on
  every server. In the server daemon it is, because it is empty: the data is drawn at random there, but its size is
  never set (src/daemons/server.go:73-97), and the frame is made with that size. `get_server_args`, which gives
  every server the data of one fixed seed (src/utilities/helpers.c:147-157, 195-205), is called by no daemon. ABD
  servers start from one common value.
- Reads may come before any write. The reader daemon writes once with `write_initial_data` before its first read
  (src/daemons/reader.go:59, 132-157); reads of the initial tag concern other callers of `SODAW_read`.
- Writers and readers work with files of one configured size, as `create_EncodeData` gives both of them the
  same number of blocks (src/utilities/helpers.c:23-30).
- The codec recovers a block from any K of the N payloads written for it, and holds that block whenever it
  declares itself complete. `Coding.ReplicationIsMds` shows that the assumption can be met. Only theorems that
  speak of values or of returning reads assume that stripes decode; order of tags, uniqueness, unregistration
  and the reader tables hold for any code. That a decoder fed one payload over and over never completes is
  assumed for the reads of the initial tag in `SodawCoding` alone; `SodawCoding.LabelCodecIsMds` meets it.
- Decoding is proved for an odd number of servers. The client's K is n/2 for even n, one below the number
  of frames it waits for; `Coding.EvenServersMisfit` says what then goes wrong.
- Servers are called server_0, server_1, ... (src/daemons/setParamRoutes.go:34), and no reader's id goes on after
  another's with an operation number and a server (`HistoryKeys.Extends`). The history table needs exactly that,
  as `HistoryKeys.KeysFaithfulIff` shows. The launcher's reader-N (src/process.go:117) and the controller's
  reader_N (src/daemons/setParamRoutes.go:91) meet it, like all ids with at most two underscores.
- Sequence numbers in tags are 32-bit ints that do not overflow; operation numbers are unsigned 32-bit.

## Findings

| source | what the code does | where it is stated |
|---|---|---|
| src/sodaw/sodaw_reader.c:201-204 | a read that settles on the initial tag gets K copies of one uncoded payload, decoding fails and the reader exits without a response: a read before the first write dies; the reader daemon avoids this by writing first | SodawCoding.UnwrittenReadDies (a run); exact conditions: SodawReads.SettledOutcome for a settled read, SodawOutcomes.OperationCompletes for one that can return, SodawExits.ReadExitsIff for one that can die |
| src/utilities/base64.c:43-71 | a text of one or two bytes need not come back, since bytes of an uninitialised buffer are decoded with it | Base64.LeftoverShows (an input), Base64.RoundTrip and Base64.RoundTripWhateverIsLeft (exact conditions) |
| src/utilities/algo_utils.c:56-88 | a final space is counted as a server but starts no name, so the last pointer stays unset; a joined list ends so exactly when its last name is empty, and empty names arise where src/daemons/setParamRoutes.go:21 splits a list of addresses that ends in the delimiter | ServerList.FinalSpaceCounted (a text), ServerList.CountSplits and ServerList.SplitJoins (exact conditions) |
| src/utilities/algo_utils.c:212-224 | the maximum is taken from an uninitialised id with sequence number -1, so a list of lower tags is missed | Tags.LowTagMissed (a list), Tags.GetMaxTag (exact condition for a given id), Tags.MaxFoundWhateverId (exact condition on the list alone) |
| src/utilities/helpers.c:27-30 | for an even number of servers the client's K is one below the number of frames it collects | Coding.EvenServersMisfit (exact condition), Coding.GetEncodedInfo |
| src/sodaw/sodaw_server.c:104-128 | two readers can share a history key, so a notice for one is taken for a duplicate of the other's; it happens if and only if one id goes on after the other with an underscore, an operation number, a server name and possibly more | HistoryKeys.TwoReadersOneKey (a pair), HistoryKeys.ReadersCollideIff and HistoryKeys.KeysFaithfulIff (exact conditions) |

## Model

| member | source | states |
|---|---|---|
| SodawTheorems.RunKeeps | src/sodaw/sodaw_server.c:185-487 | the invariant of the system (stored and relayed elements, three tables, requests, clients, history) holds in every state of every run |
| SodawTheorems.NoReaderStuck | src/sodaw/sodaw_server.c:185-256 | once a majority has processed a reader's READ_VALUE and stores one tag not below its read tag, K different servers have sent it elements of one tag |
| SodawTheorems.FrameComing | src/sodaw/sodaw_reader.c:155-177 | if K servers have sent elements of a tag and fewer frames of it were counted, one that was not counted is on its way |
| SodawTheorems.ServedReaderProceeds | src/sodaw/sodaw_reader.c:108-177 | a reader that was sent K elements of one tag and is still waiting can receive one more of them: it is never left without a next step |
| SodawTheorems.SafeUnregistration | src/sodaw/sodaw_server.c:268-377 | if a server lists a reader as finished with an operation, K different servers have each sent it an element of one tag for that operation, whatever caused the listing |
| SodawTheorems.RelayCompleteness | src/sodaw/sodaw_server.c:214-240 | a server at which a reader is registered with a read tag not above the stored tag has sent that reader the stored element |
| SodawTheorems.RegistrationFate | src/sodaw/sodaw_server.c:411-487 | a processed READ_VALUE whose tag the server has reached led to the element of the current tag being sent, or the reader was served elsewhere |
| SodawTheorems.OneElementPerTag | src/sodaw/sodaw_server.c:212-252 | a server sends at most one element per reader, operation and tag over a whole run |
| SodawTheorems.CountingMessagesCountsServers | src/sodaw/sodaw_reader.c:159-175 | the length of a reader's list for a tag is the number of different servers that sent it such an element |
| SodawTheorems.ReaderAssertionHolds | src/sodaw/sodaw_reader.c:155-157 | every element under way for a reader's current operation has a tag not below its read tag |
| SodawTheorems.HistoryBound | src/sodaw/sodaw_server.c:341-377 | at every server the two reader tables are disjoint, every history group has fewer than K senders, and no entry is as old as a finished read |
| SodawTheorems.StaleIsRank | src/sodaw/sodaw_server.c:282-288 | the early exits fire exactly when the reader's rank (2*op, plus 1 when finished) is above twice the message's operation number |
| SodawTheorems.StaleMessagesIgnored | src/sodaw/sodaw_server.c:333-338 | a message below the rank changes nothing at the server and sends nothing |
| SodawTheorems.RankNeverDecreases | src/sodaw/sodaw_server.c:428-458 | from any state of a run to any later one, no server's tag and no reader's rank goes down |
| SodawTheorems.CompletedNeverReturns | src/sodaw/sodaw_server.c:430-458 | a finished operation is never registered again and its reader never disappears from the tables |
| SodawTheorems.StoredProvenance | src/sodaw/sodaw_server.c:240-252 | every stored element is its server's stripe of the value written under the stored tag |
| SodawTheorems.RelayedProvenance | src/sodaw/sodaw_server.c:222-225 | every element on its way to a reader is its sender's stripe of the value written under its tag |
| SodawTheorems.FreshWriteTag | src/sodaw/sodaw_writer.c:172-182 | a write's new tag was never used before and lies above the tags of all operations that had returned before the write began |
| SodawTheorems.MadeIsForever | src/sodaw/sodaw_writer.c:180-198 | the value written under a tag never changes during the rest of a run |
| SodawTheorems.WriteTagsDiffer | src/sodaw/sodaw_writer.c:180-182 | no two writes of a run, by whichever clients, take the same tag |
| SodawTheorems.NumbersWithoutGaps | src/sodaw/sodaw_writer.c:180-182 | in every run the sequence numbers of the writes start at 1 and leave no number out |
| SodawTheorems.NumberCountsWrites | src/sodaw/sodaw_writer.c:180-182 | a tag with number n exists only after n writes at least have taken tags |
| SodawTheorems.AtomicOrder | src/sodaw/sodaw_client.c:30-80 | if an operation returns before another begins, the later one's tag is not smaller, and strictly larger if it writes |
| SodawTheorems.SodawLinearizable | src/sodaw/sodaw_reader.c:266-353 | at every moment of every run the operations so far have a sequential order that respects real time and in which each read returns the latest written value |
| SodawTheorems.ReadsReturnWrites | src/sodaw/sodaw_reader.c:155-204 | in every run, every completed operation on a written tag returned what was written under that tag |
| SodawTheorems.HistoryIsTruthful | src/sodaw/sodaw_reader.c:155-197 | every completed read of a written tag returned the value written under it |
| SodawProgress.ServedWhenCaughtUp | src/sodaw/sodaw_server.c:411-487 | once some majority of servers has handled every request, those servers store one tag and every waiting reader has been sent K elements of one tag |
| SodawProgress.AnswerComing | src/sodaw/sodaw_client.c:45-80 | a client short of a majority of answers or acknowledgements has one more under way that it will count |
| SodawProgress.PhaseFinishes | src/sodaw/sodaw_reader.c:108-204 | in that situation every client can end its current phase by its own steps alone; a reader's last phase ends with its response or, if decoding fails, with its exit |
| SodawProgress.OperationEnds | src/sodaw/sodaw_reader.c:266-334 | from every reachable state, every operation under way can be brought to its end by its client and any majority of the servers alone: a write returns, a read returns or its reader exits |
| SodawSessions.WrittenIsRead | src/sodaw/sodaw_client.c:30-80 | from every reachable state with no write waiting for acknowledgements, a writer, then a reader and any majority can go on alone, and the read returns exactly the value written, under the tag of the write |
| SodawReads.SettledOutcome | src/sodaw/sodaw_reader.c:180-204 | a settled read returns if and only if its tag was written or the initial elements it holds decode; otherwise, and only then, the reader exits |
| SodawReads.OnlyUnwrittenReadsFail | src/sodaw/sodaw_reader.c:201-204 | a reader exits only after reading the initial tag, with no write returned before the read began |
| SodawReads.NobodyStops | src/sodaw/sodaw_reader.c:201-204 | if the initial elements decode, no reader exits in any run |
| SodawOutcomes.OperationCompletes | src/sodaw/sodaw_reader.c:266-334 | in every reachable state, an operation under way can be completed by its client and a majority if and only if it is a write, the initial elements decode, or it is a read that can still settle on a written tag, spelled out for each phase as a condition on that state |
| SodawOutcomes.ReadAboveInitialCompletes | src/sodaw/sodaw_reader.c:266-334 | a read with a read tag above the initial one can always be completed |
| SodawOutcomes.ReturnQuerying | src/sodaw/sodaw_reader.c:266-334 | a read still in its query can be completed as soon as any write has its tag |
| SodawOutcomes.RunDooms | src/sodaw/sodaw_server.c:212-256 | a read bound to settle on the initial tag stays so, whatever its reader and the servers of the majority do |
| SodawOutcomes.ServerStepNarrows | src/sodaw/sodaw_server.c:212-256 | no server step enlarges the set of servers that have sent, or still can send, a reader a given tag |
| SodawOutcomes.FirstReadDies | src/sodaw/sodaw_reader.c:201-204 | where the initial elements do not decode, the first read before any write ends in the reader's exit |
| SodawExits.ReadExitsIff | src/sodaw/sodaw_reader.c:180-204 | in every reachable state, a client under way can still end its operation in the exit, by any steps of all clients and of the servers in a given set (all servers, say), if and only if it is in a read, the initial elements do not decode and the read can still settle on the initial tag, spelled out for each phase as a condition on that state |
| SodawExits.ExitPossible | src/sodaw/sodaw_reader.c:266-334 | where that condition holds, the reader and the servers in question can bring the exit about by their own steps |
| SodawExits.RunSpares | src/sodaw/sodaw_server.c:212-256 | a read that cannot die stays so, whatever those servers and all clients do, until it has ended |
| SodawUnregistration.UnregistrationComplete | src/sodaw/sodaw_server.c:333-377 | once a server has processed notices of K different senders for one reader, operation and tag, with anything in between and in any order, the reader's rank there is beyond that operation for the rest of the run |
| SodawUnregistration.NothingMoreSent | src/sodaw/sodaw_server.c:209-240 | from then on the server sends that reader no further element for the operation |
| SodawUnregistration.NoticeStays | src/sodaw/sodaw_server.c:341-370 | a processed notice stays in the history until the reader's rank is beyond its operation |
| SodawUnregistration.ElementsAreAnnounced | src/sodaw/sodaw_server.c:212-252 | in every run, a server has multicast READ_DISPERSE for a reader, operation and tag if and only if it has sent the reader that element, at a write or at the registration |
| SodawUnregistration.NoticesEndRegistration | src/sodaw/sodaw_server.c:314-377 | from every reachable state in which a reader was served, deliveries of the READ_DISPERSE messages under way alone bring any given server past the operation, without a READ_COMPLETE |
| SodawUnregistration.CompletionEndsRegistration | src/sodaw/sodaw_reader.c:248-263 | a read that has returned has sent READ_COMPLETE to every server: a server that has handled it is past the operation, any other is past it after that one step |
| SodawUnregistration.RunCompletes | src/sodaw/sodaw_server.c:282-311 | in every run, each returned read has its READ_COMPLETE under way with its own read tag, and wherever one was handled the server is past the operation |
| SodawProgress.RunMarks | src/sodaw/sodaw_server.c:254-262 | in every run, handled queries were answered, handled puts were acknowledged and left a tag no smaller, every tag was offered to the servers, and reads ask for tags that exist |
| SodawServerSteps.ServeKeeps | src/sodaw/sodaw_server.c:185-256 | serving a query, a put, a value request or a completion keeps the whole invariant |
| SodawServerSteps.SpreadKeeps | src/sodaw/sodaw_server.c:314-377 | processing a READ_DISPERSE, however often, keeps the whole invariant |
| SodawServerSteps.GroupWitnesses | src/sodaw/sodaw_server.c:351-357 | a history group of K entries is K different servers that each sent the reader that tag |
| SodawClientSteps.QueryCovers | src/sodaw/sodaw_client.c:45-80 | the maximum of a majority of answers is not below the tag of any operation that returned before the query began |
| SodawClientSteps.NewTagIsNew | src/sodaw/sodaw_writer.c:172-182 | maximum plus one with the writer's own id is a tag nobody has made |
| SodawClientSteps.AcksBack | src/sodaw/sodaw_writer.c:104-113 | a majority of acknowledgements means that a majority of servers store the written tag or a later one |
| SodawClientSteps.FramesInHand | src/sodaw/sodaw_reader.c:171-177 | a reader that is done holds exactly K elements of one tag, from K different servers, not below its read tag |
| SodawClientSteps.DecodedValue | src/sodaw/sodaw_reader.c:180-203 | decoding those frames gives the value written under their tag |
| SodawClientSteps.SettledDecodes | src/sodaw/sodaw_reader.c:180-204 | a reader that has settled on a written tag decodes successfully, to the value written |
| SodawClientSteps.GiveUpKeeps | src/sodaw/sodaw_reader.c:201-204 | a reader's exit keeps the whole invariant |
| SodawClientSteps.FinishReadKeeps | src/sodaw/sodaw_reader.c:248-263 | ending a read with READ_COMPLETE keeps the whole invariant |
| SodawSpec.WritePutKeeps | src/sodaw/sodaw_server.c:209-262 | WRITE_PUT keeps the tables in order and moves tag and ranks only upwards |
| SodawSpec.ReadValueKeeps | src/sodaw/sodaw_server.c:428-487 | READ_VALUE keeps the tables in order, moves ranks only upwards and leaves the reader's rank at its operation or beyond |
| SodawSpec.ReadCompleteKeeps | src/sodaw/sodaw_server.c:282-310 | READ_COMPLETE keeps the tables in order and leaves the reader's rank beyond its operation |
| SodawSpec.ReadDisperseKeeps | src/sodaw/sodaw_server.c:333-377 | READ_DISPERSE keeps every history group below K, because a full group is cleared in the same step |
| SodawSpec.UnregisterKeeps | src/sodaw/sodaw_server.c:355-370 | moving a reader to the finished table restores the bounds that a full group had broken |
| SodawServer.SodawServer.constructor | src/sodaw/sodaw_server.c:73-82 | a server starts with empty tables and with K the majority of the servers |
| SodawServer.SodawServer.EnsureObject | src/sodaw/sodaw_server.c:597-600 | an object that does not exist yet starts from the initial tag; others are untouched |
| SodawServer.SodawServer.GetTag | src/sodaw/sodaw_server.c:382-399 | the answer carries the stored tag and nothing changes |
| SodawServer.SodawServer.Relay | src/sodaw/sodaw_server.c:214-240 | one element and one notice go to exactly the registered readers whose read tag is not above the written tag |
| SodawServer.SodawServer.WritePut | src/sodaw/sodaw_server.c:185-266 | the tables, the stored pair and everything sent are those of the system's put step |
| SodawServer.SodawServer.ReadValue | src/sodaw/sodaw_server.c:411-487 | the tables and everything sent are those of the system's value step |
| SodawServer.SodawServer.ReadComplete | src/sodaw/sodaw_server.c:268-311 | the tables become those of the system's completion step |
| SodawServer.SodawServer.ReadDisperse | src/sodaw/sodaw_server.c:314-380 | with text keys in the table, the state becomes that of the system's disperse step on sets of evidence, for any reader ids that do not extend one another |
| SodawServer.SodawServer.Record | src/sodaw/sodaw_server.c:341-343 | inserting under the text key adds exactly one piece of evidence, or none if it was there |
| SodawServer.SodawServer.LookupHistory | src/sodaw/sodaw_server.c:526-543 | the list holds the matching keys, each once |
| SodawServer.SodawServer.ClearHistory | src/sodaw/sodaw_server.c:509-524 | exactly the reader's evidence up to the operation is gone |
| SodawServer.KeyTakenIffKnown | src/sodaw/sodaw_server.c:341-343 | a key is taken exactly when its evidence is recorded, so a repeated notice never raises a count |
| SodawServer.KeysCountEvidence | src/sodaw/sodaw_server.c:351-355 | different keys stand for different evidence, so counting keys is counting evidence |
| SodawServer.MatchingIsGroup | src/sodaw/sodaw_server.c:526-543 | as many keys match as the evidence group of the reader, operation and tag has members |
| SodawServer.RemainingEvidence | src/sodaw/sodaw_server.c:509-524 | clearing the text-keyed table clears the same evidence |
| HistoryKeys.KeyInjective | src/sodaw/sodaw_server.c:104-128 | equal keys of entries from numbered servers mean equal reader, operation, sender and sent tag, for one reader or two readers whose ids do not extend one another |
| HistoryKeys.ReadersCollideIff | src/sodaw/sodaw_server.c:104-128 | two different readers have entries with one key if and only if one id extends the other: underscore, operation number, server name and possibly a number and more |
| HistoryKeys.KeysFaithfulIff | src/sodaw/sodaw_server.c:104-128 | the keys of a set of readers tell all their entries apart if and only if no two of the ids extend one another |
| HistoryKeys.SameBits | src/sodaw/sodaw_server.c:104-106 | an unsigned operation number is printed as the 32-bit int with the same bits |
| HistoryKeys.LargestNumber | src/sodaw/sodaw_server.c:104-128 | the key of a reader's largest operation number, letter by letter |
| HistoryKeys.FewUnderscoresApart | src/sodaw/sodaw_server.c:104-128 | ids with at most two underscores never extend one another |
| HistoryKeys.TwoReadersOneKey | src/sodaw/sodaw_server.c:104-128 | a failing pair: readers a and a_1_server_2, with entries from server_2 and server_4 |
| HistoryKeys.UnderscoredReadersCollide | src/sodaw/sodaw_server.c:104-128 | a whole family of such pairs, for arbitrary senders |
| SodawClient.GetPhase | src/sodaw/sodaw_client.c:30-80 | the loop counts as the system's client and ends at the first quiet poll after a majority, with the maximum of what it counted; otherwise at the first failed poll, or it has used all polls |
| SodawClient.QueryCounts | src/sodaw/sodaw_client.c:67-79 | what the query counts is the tags sent to the client for this operation and kind of query, all of them and in order |
| SodawClient.PutCounts | src/sodaw/sodaw_writer.c:104-113 | what the put counts is the acknowledgements sent to the writer for this operation |
| SodawClient.ReadCounts | src/sodaw/sodaw_reader.c:155-175 | what the reader counts is the elements sent to it for this operation, up to the one that completes K of one tag |
| SodawClient.DoneIffDelivers | src/sodaw/sodaw_reader.c:105-180 | a loop ends with a result if and only if its polls bring enough messages, and a quiet poll after them where it waits for one, before a poll fails or the assertion does |
| SodawClient.PutPhase | src/sodaw/sodaw_writer.c:79-125 | the loop ends exactly at the acknowledgement that completes a majority, at the first failed poll before it, or with all polls used |
| SodawClient.ListedElements | src/sodaw/sodaw_reader.c:158-169 | the list under a tag's text holds exactly the elements received for that tag, in order |
| SodawClient.ValuePhase | src/sodaw/sodaw_reader.c:105-180 | the loop ends at the first quiet poll after some tag has reached a majority, with its key and exactly its payloads; at a failed poll; at an element below the read tag, where its assertion fails; or with all polls used |
| SodawClient.ValuePhaseInRun | src/sodaw/sodaw_reader.c:155-157 | fed with messages that the servers of a run have sent, the collecting loop never fails its assertion |
| SodawClient.Write | src/sodaw/sodaw_writer.c:129-198 | the tag has the number after the maximum counted and the writer's id; the write is done if and only if the polls of both phases let them end, and says otherwise which phase is waiting or failed |
| SodawClient.Read | src/sodaw/sodaw_reader.c:266-334 | the read settles if and only if the polls of both phases let them end; it then returns what its frames decode to or exits if they do not, and says otherwise which phase is waiting or failed |
| AbdTheorems.RunKeeps | src/abd/abd_server.c:28-173 | the invariant of the system holds in every state of every run |
| AbdTheorems.AtomicOrder | src/abd/abd_reader.c:172-191 | if an operation returns before another begins, the later one's tag is not smaller, and strictly larger if it writes; reads achieve it by writing back |
| AbdTheorems.NumbersWithoutGaps | src/abd/abd_writer.c:137-139 | in every run the sequence numbers of the writes start at 1 and leave no number out |
| AbdTheorems.ValuesBelongToTags | src/abd/abd_server.c:58-84 | what is stored or returned under a tag is the one value written under it, and a returned tag is backed by a majority |
| AbdTheorems.AbdLinearizable | src/abd/abd_reader.c:118-199 | at every moment of every run the operations so far form a legal sequential register history from the initial value, in an order that respects real time |
| AbdProgress.OperationCompletes | src/abd/abd_reader.c:118-199 | from every reachable state, every read and every write under way can be completed by its client and any majority of the servers alone, its response the only new event |
| AbdSessions.WrittenIsRead | src/abd/abd_reader.c:118-199 | from every reachable state with no write waiting for acknowledgements, a writer, then a reader and any majority can go on alone, and the read returns exactly the value written, under the tag of the write |
| AbdProgress.AnswerComing | src/abd/abd_client.c:40-80 | a client short of a majority has one more message under way that it will count |
| AbdServer.AbdServer.EnsureObject | src/abd/abd_server.c:187-191 | an object that does not exist yet starts from the initial tag; others are untouched |
| AbdServer.AbdServer.WriteValue | src/abd/abd_server.c:28-110 | the stored pair and the acknowledgement are those of the system's write step; other objects stay |
| AbdServer.AbdServer.GetTag | src/abd/abd_server.c:113-135 | the answer is the system's |
| AbdServer.AbdServer.GetTagValue | src/abd/abd_server.c:137-173 | the answer carries the stored tag and the value found under its text |
| AbdClient.GetMaxTagPhase | src/abd/abd_writer.c:15-97 | the loop counts as the system's client, ends with a majority and returns the maximum of what it counted |
| AbdClient.GetMaxTagValuePhase | src/abd/abd_reader.c:27-115 | the loop returns tag and value of one counted answer whose tag is the maximum |
| AbdClient.WriteValuePhase | src/abd/abd_client.c:17-85 | the loop ends exactly at the acknowledgement that completes a majority |
| AbdClient.QueryCounts | src/abd/abd_reader.c:60-100 | what a query counts is the first majority of the answers of its kind sent to the client for this operation |
| AbdClient.WriteCounts | src/abd/abd_client.c:58-74 | what a write phase counts is the first majority of the acknowledgements sent to the client for this operation |
| AbdClient.DoneIffDelivers | src/abd/abd_client.c:38-80 | a loop ends with a result if and only if its polls bring a majority before one of them fails |
| AbdClient.Write | src/abd/abd_writer.c:99-155 | the tag has the number after the maximum counted and the writer's id; the write is done if and only if the polls of both phases bring majorities, and says otherwise which phase is waiting or failed |
| AbdClient.Read | src/abd/abd_reader.c:118-199 | the read returns if and only if the polls bring a majority of answers and of acknowledgements; it returns a counted pair of maximal tag that was written back, and says otherwise which phase is waiting or failed |
| Linearization.Linearizable | src/abd/abd_reader.c:172-191 | tags that respect real time, differ between writes and name the value read always give a sequential register history |
| Histories.HistoryLinearizable | src/abd/abd_reader.c:172-191 | the same from a recorded history with writes still open |
| Tags.ComparisonsAgree | src/utilities/algo_utils.c:157-172 | the two comparison functions and every test made on their results answer one question |
| Tags.TagOrder | src/utilities/algo_utils.c:166-172 | tags are totally ordered |
| Tags.OrderOfTags | src/utilities/algo_utils.c:149-172 | a tag is below another if and only if its number is smaller, or the numbers are equal and its id comes first in the order of dictionaries; the pointer version answers -2 exactly for a smaller number |
| Tags.GetMaxTag | src/utilities/algo_utils.c:212-224 | the result is the maximum of the list if and only if the list has a tag not below the uninitialised start value; it is then the listed tag with the largest number and, among those, the last id in the order of dictionaries |
| Tags.MaxFoundWhateverId | src/utilities/algo_utils.c:212-224 | the maximum is found whatever the uninitialised id holds if and only if some tag of the list has a sequence number from 0 on |
| Tags.LowTagMissed | src/utilities/algo_utils.c:212-224 | a list with one tag of sequence number -2 is a failing input |
| Quorums.Majority | src/sodaw/sodaw_server.c:81 | ceil((n+1)/2) in floating point is n/2 + 1 |
| Quorums.ClientK | src/utilities/helpers.c:27 | the client's ceil(n+1)/2, truncated, is (n+1)/2 |
| Quorums.ThresholdsAgreeIffOdd | src/utilities/helpers.c:27 | client and server thresholds agree exactly for odd n |
| Quorums.MajoritiesMeet | src/sodaw/sodaw_client.c:37 | two majorities of the same servers share one |
| ObjectStore.Objects.StorePayload | src/baseprocess/server.c:146-167 | both policies: -1 and no change when yielding to an existing entry, else the entry is the new payload |
| ObjectStore.Objects.CreateObject | src/baseprocess/server.c:170-212 | a new object of a known algorithm is the initial tag with the initial data; otherwise nothing changes |
| ObjectStore.Objects.GetObjectTag | src/utilities/algo_utils.c:236-254 | the tag read back from the only key is the stored one |
| ObjectStore.Objects.GetObjectFrame | src/utilities/algo_utils.c:284-298 | looking the payload up under the printed tag finds it |
| ObjectStore.Objects.Replace | src/sodaw/sodaw_server.c:240-252 | deleting the first key and inserting the new one replaces the pair and keeps exactly one entry |
| ObjectStore.PairOfEntry | src/abd/abd_server.c:58-84 | an inner hash with one entry under a tag's text stands for one (tag, payload) pair |
| TagText.TagRoundTrip | src/utilities/algo_utils.c:174-202 | reading back a printed tag gives the tag, for every sequence number and every id, underscores included |
| TagText.TagTextInjective | src/utilities/algo_utils.c:199-202 | different tags have different texts |
| TagText.InitialText | src/utilities/algo_utils.c:131-135 | the tag every server starts from prints as 0_client_0 |
| TagText.KnownTexts | src/utilities/algo_utils.c:199-202 | the texts of a tag with several digits and of a negative one |
| TagText.NumberFitsBuffer | src/utilities/algo_utils.c:174-184 | the number of a 32-bit tag fits the 16-byte scratch buffer |
| TagText.StringToTag | src/utilities/algo_utils.c:174-197 | the loops compute the tag whose text was given |
| Coding.Encode | src/codes/rlnc_rs.cpp:63-222 | server s gets the s-th payload of every padded block, in order; sizes and block count are as reported |
| Coding.GetEncodedInfo | src/sodaw/sodaw_reader.c:208-246 | with at most K frames they are copied in arrival order and the symbol size is the total size over blocks times K; with more, or nothing to divide by, there is no result |
| Coding.ConvertFromC | src/codes/rlnc_rs.cpp:226-260 | buffer s falls apart into one symbol per block |
| Coding.Decode | src/codes/rlnc_rs.cpp:267-342 | the blocks are decoded one by one from the payloads up to the first complete decoder |
| Coding.SymbolSizeRecovered | src/sodaw/sodaw_reader.c:243 | with K frames the integer division gives back the encoded symbol size |
| Coding.EvenServersMisfit | src/utilities/helpers.c:27-30 | for even n the reader copies one frame too many and recovers the symbol size exactly when it is below its K |
| Coding.ClientNumBlocks | src/utilities/helpers.c:30 | the client's number of blocks is the number that encoding produces |
| Coding.PieceOfConcat | src/codes/rlnc_rs.cpp:240-254 | a stripe of equal payloads falls apart into them again |
| Coding.DecodedBlocks | src/codes/rlnc_rs.cpp:299-337 | decoding any K different stripes in any order gives the padded blocks |
| Coding.PaddedMeans | src/codes/rlnc_rs.cpp:98-130 | what comes back is the payload followed by fewer than K times symbol-size bytes of value 32 |
| Coding.FirstCompleteMeans | src/codes/rlnc_rs.cpp:299-325 | a block is what its decoder holds after the shortest run of payloads that completes it; there is none if no run does |
| Coding.DecodeMeans | src/codes/rlnc_rs.cpp:299-342 | decoding succeeds if and only if every block decodes, and gives the blocks in order |
| Coding.ReadBack | src/sodaw/sodaw_reader.c:180-203 | the reader's steps on the K frames it settled on give the padded payload, for every nonempty payload, odd n and symbol size |
| SodawCoding.PipelineDecodes | src/codes/rlnc_rs.cpp:63-342 | the pipeline satisfies what the system theorems assume of a code |
| SodawCoding.ReadsReturnFiles | src/sodaw/sodaw_reader.c:266-353 | in every run over the pipeline, a completed read of a written tag returned the file written under that tag plus padding |
| SodawCoding.InitialUndecodable | src/baseprocess/server.c:198-202 | the same uncoded payload from K servers never decodes, for a codec that no repeated payload completes |
| SodawCoding.InitialReadsFail | src/sodaw/sodaw_reader.c:201-204 | over the pipeline, a settled read fails exactly when it has settled on the initial tag |
| SodawCoding.LabelCodecIsMds | src/codes/rlnc_rs.cpp:299-325 | both assumptions on the codec can be met together |
| SodawCoding.UnwrittenReadDies | src/sodaw/sodaw_reader.c:201-204 | a concrete run: three servers created with one byte, no write, one read, and its reader exits |
| ServerList.SplitJoins | src/utilities/helpers.c:5-20 | splitting a joined list of space-free names gives the list back exactly when its last name is not empty, and what it gives otherwise |
| ServerList.CountJoins | src/utilities/algo_utils.c:56-66 | counting a joined list gives its length, except for the list of one empty name |
| ServerList.CountSplits | src/utilities/algo_utils.c:56-88 | for every text, the count exceeds the number of names by one if the text ends in a space and equals it otherwise |
| ServerList.FinalSpaceCounted | src/utilities/algo_utils.c:56-88 | the list of a name and an empty name is counted as two and splits into one |
| ServerList.JoinLength | src/utilities/helpers.c:7 | names of at most 15 characters and their separators fit 16 characters each |
| ServerList.JoinFillsBuffer | src/utilities/helpers.c:7-18 | names of 15 characters fill that buffer to the last byte, NUL included |
| ServerList.GetServersStr | src/utilities/helpers.c:5-20 | the buffer of 16 characters a name holds the joined list and its NUL |
| ServerList.CountNumServers | src/utilities/algo_utils.c:56-66 | the loop computes the count |
| ServerList.CreateServerNames | src/utilities/algo_utils.c:68-88 | each name of the text stands NUL-terminated in its own 16-character buffer |
| Base64.RoundTrip | src/utilities/base64.c:29-133 | decoding an encoded NUL-free text gives it back, read as a C string, if and only if the uninitialised buffer does not show: third value below 4 for one byte, fourth value zero for two |
| Base64.RoundTripWhateverIsLeft | src/utilities/base64.c:43-71 | a text comes back whatever the buffer held if and only if it has neither one nor two bytes |
| Base64.LeftoverShows | src/utilities/base64.c:43-71 | "A" with 4 left in the third place comes back as two bytes |
| Base64.DecodeEncode | src/utilities/base64.c:29-133 | the decoded bytes are the text and an explicit trailer |
| Base64.EncodedLength | src/utilities/base64.c:112-133 | four characters for every three bytes or part of three |
| Base64.EncodedCharacters | src/utilities/base64.c:89-110 | only characters of the table and padding appear |
| Base64.SymbolsAreTable | src/utilities/base64.c:15 | the 64 symbols are those of the table in its order, and padding is the equals sign |
| Base64.KnownEncodings | src/utilities/base64.c:89-133 | the encodings of f, fo and foo are those of section 10 of RFC 4648 |
| Base64.EncodeInjective | src/utilities/base64.c:112-133 | different texts have different encodings |
| Base64.OthersIgnored | src/utilities/base64.c:52-71 | characters outside the table other than padding change nothing |
| Base64.PadEnds | src/utilities/base64.c:54-58 | nothing after the first padding character matters |
| Base64.RoundTripThroughNoise | src/utilities/base64.c:43-71 | an encoded text with foreign characters strewn in decodes to the text |
| Base64.QuadBits | src/utilities/base64.c:89-95 | the masks and shifts of encodeblock are the sixes of the 24-bit group |
| Base64.FullBlock | src/utilities/base64.c:29-41 | the shifts of decodeblock, cut to bytes, give three bytes back |
| Base64.EncodeBlock | src/utilities/base64.c:89-110 | four characters of the group are appended |
| Base64.B64Encode | src/utilities/base64.c:112-133 | the destination holds the encoding and its NUL |
| Base64.B64Decode | src/utilities/base64.c:43-71 | the destination holds what the table-driven decoding gives for the given leftovers, and a NUL after it |
| Checksum.SimpleHash | src/utilities/algo_utils.c:488-499 | the loop computes the closed form, every 32-bit operation staying in range |
| Checksum.OneMore | src/utilities/algo_utils.c:494-497 | one step of both accumulators in terms of the closed form |
| Checksum.ByteByByte | src/utilities/algo_utils.c:488-499 | the checksum of no bytes is 1, and one byte more adds to both halves modulo 65521 |
| Checksum.HashOfConcat | src/utilities/algo_utils.c:488-499 | the hash of a concatenation is a function of the two hashes and the second length |
| Checksum.MiddleDecides | src/utilities/algo_utils.c:488-499 | texts that differ in a middle part of one length collide exactly when the middle parts do |
| Checksum.OneChangeShows | src/utilities/algo_utils.c:488-499 | changing one byte always changes the hash |
| Checksum.ExchangeShows | src/utilities/algo_utils.c:488-499 | exchanging two different neighbours always changes the hash |
| Checksum.ShiftOrIsSum | src/utilities/algo_utils.c:498 | shifting the high half and or-ing the low half is adding them, and both can be read back |
| Bits.OrBits | src/utilities/base64.c:89-95 | a bit of the modelled or is set if and only if it is in one of the operands |

## Left out

- ZeroMQ and CZMQ: sockets, polling, timeouts, signals, threads and frame memory; a set of messages and a
  list of poll results stand for them.
- The Kodo library's field arithmetic; only the recovery of a block from any K payloads is assumed.
- The Go daemons, HTTP routes, docker controller, log parser and scripts.
- src/casgc and src/soda, which are commented-out copies or stubs.
- Status accounting, debug dumps, logging and timing.
- C memory safety, except for the server list, the number buffer and the base64 destination.
- Overflow of sequence and operation numbers.
- A client that restarts and counts its operations from the beginning again, and changes of the server set
  (src/daemons/reader.go:46-60).
- ABD clients that reuse an operation number: reads and writes share the phase name WRITE_VALUE, and the
  acknowledgement loop tells operations apart by their number alone; numbers increase in the model.
- Several objects in SODAW, whose reader tables are shared between them.
- End-to-end decoding for an even number of servers, which does not hold.
- Rounding of single-precision floats in create_EncodeData and in the thresholds; the quotients are exact
  reals here.
- SodawSystem.Apply: a write may count acknowledgements beyond the majority before it finishes, where the
  code stops at the majority; the theorems hold for both.
- SodawSystem.StripesOf: the put request of the system carries the whole value and each server derives its
  own stripe from it, where the code sends each server its stripe only.
- Order inside hash tables: loops over keys take them in any order.
- The text representation of the messages; handlers receive parsed fields, with tags as text where the code
  keeps them as text.
- The history table and the object store are maps that methods reassign, not CZMQ hashes with shared
  pointers, so freeing and aliasing are not captured.
- Fair scheduling: progress is proved as the existence of completing steps from a reachable state, not as
  termination under a scheduler or under endless concurrent writes.
