# R-Pingmesh: the probe protocol and its bookkeeping, verified

R-Pingmesh is an active prober for RDMA networks. An agent sends a probe over a UD queue pair, the responder answers
with two ACKs, and the prober combines six timestamps into a network round-trip time and two processing delays. This
project models the parts of the agent and the controller on which the correctness of those figures rests and proves
what they guarantee over every input, every interleaving and every run.

| file | what it models |
|---|---|
| `Keys.dfy` | session keys and service-flow keys as text, and when they are unique |
| `Sessions.dfy`, `Prober.dfy` | the session map with its sequence-number index; `Prober` is the imperative code, proved against the table operations |
| `Waiting.dfy` | the loop that waits for the two ACKs and the figures computed from them |
| `Protocol.dfy` | the whole two-ACK protocol as a step system: probe calls, session table, network, responders, cleanup, Close |
| `TableRuns.dfy`, `WireRuns.dfy`, `EventRuns.dfy`, `CountRuns.dfy` | the invariants every step keeps, one aspect each |
| `ProtocolTheorems.dfy`, `Progress.dfy` | the guarantees over whole runs, and how calls end |
| `Effects.dfy` | what single steps of a run do, field by field, and what each counter counts |
| `Provenance.dfy` | the steps of a run that the timestamps of an OK result come from |
| `Misrouting.dfy`, `SharedLabelRun.dfy` | why unambiguous flow labels are needed, with a complete run in which they are not |
| `SecondAckFirst.dfy` | a complete run in which the two ACKs arrive in the wrong order |
| `BlockedRuns.dfy` | complete runs in which a probe cannot publish its result |
| `Nanoseconds.dfy` | the same figures in 64-bit arithmetic |
| `Responder.dfy` | the responder's reaction to one packet |
| `UploadQueue.dfy`, `Uploader.dfy` | the bounded retry queue of the uploader, on sequences over whole runs and on Go slices that share arrays |
| `UDQueue.dfy` | slot layout, send ring and receive credits of a UD queue |
| `Pinglist.dfy` | the wrapping hash behind flow labels, source ports and priorities |
| `ServiceFlows.dfy` | the map of traced service flows and its mirror in the prober |
| `Scheduler.dfy` | the pinglist filter and the round-robin probe scheduler |

How the protocol is modelled. A state holds the session table, the place of every `ProbeTarget` call, what is on the
wire, what the responders recorded, the counters and the published results. A step is one atomic operation: one map
write, one channel operation, one packet event. So every interleaving of add, remove, cleanup and Close is a run,
including the points between the two map writes of `addSession` and between the three operations of `removeSession`.
Probes may be lost and reordered; ACKs may be lost, reordered, repeated and handled long after they arrived; the label
and source GID seen when an ACK is handled are arbitrary. Each call has a context that ends at some time, may or may not
find a sender queue, and publishes into a channel of 1000 results that a consumer empties and Close closes. Clocks are
true time plus a constant offset, one per NIC on either side and one for the application clock.

What turned out not to hold as the code or its comments suggest:

- An ACK is matched by flow label first, without looking at its sequence number. Routing is right exactly while no
  other live session has the label the ACK arrived with (`MisrouteIff`). Service-tracing probes all have label 0, and
  `LabelsMustDiffer` gives a run in which a probe that no responder ever received ends OK with the times of another.
- The network figure is not the round trip of probe and ACK when the second ACK sets T5: it then contains the time
  between the two ACKs as well (`RoundTripIff`, with a run in `GapShows`).
- A probe does not always publish: it is stuck with its result when the results channel is full or Close has closed it
  (`StuckIff`, `PublishesIff`, with runs in `FullChannelBlocks` and `ClosedChannelBlocks`).
- A packet that is too small is reposted twice, and a packet that goes through `ReceivePacket` is reposted a second
  time, so receive credits grow; a completion error loses one. `CreditsExactlyOneIff` says which events keep one.
- Putting a batch back respects the queue limit exactly when the batch itself fits (`RequeueBound`), in all runs exactly
  when the batch size is at most the limit (`BoundedIff`); adding results
  never does. The logged number of dropped results is almost never the number dropped (`LoggedDroppedIff`).
- Labels of targets that differ only in their last GID character are distinct for lists of up to 7340 rows and no
  longer (`LastCharLabelsIff`). In lower case the limit is 19923, without a final dot, as GIDs are printed, 34603
  (`PrintedGidLabelsIff`), over all of ASCII 5243.
- Destroying a QP removes one flow only, so a QP that connected twice leaves a stale flow
  (`ReconnectLeavesStaleFlow`). A QP whose GID was looked up locally when it connected and is printed in hexadecimal
  when it is destroyed leaves its flow too (`OtherSpellingLeavesStaleFlow`). The case "match by QPN alone" is never
  reached, because the text of a zero GID is not empty (`UnresolvedDestroyRemovesNothing`). `MapIsLiveFlows` says exactly
  when the map is right.
- The link-local test panics on GIDs of exactly four bytes (`SkipRule`).

## Model

| member | source | states |
|---|---|---|
| `ProtocolTheorems.RoutingOverRuns` | internal/probe/prober.go:859-990 | In every run in which no ACK is handled while another live session has the label it arrived with, every event in every session's channels, and every event its call has taken, carries that session's own sequence number. |
| `ProtocolTheorems.OkResultsAreOwn` | internal/probe/prober.go:581-618 | In such runs an OK result's T1 and T2 are its own probe's, and T3 and T4 are what the responder recorded for that very probe, in causal order with T5. |
| `ProtocolTheorems.MeasurementIsRight` | internal/probe/prober.go:620-625 | In such runs the three figures of an OK result add up to T6 - T1; the network figure is the true transit time of the probe plus the true time from the departure of the first ACK to the arrival of the ACK that set T5, so no clock offset enters it, and it is not negative whichever ACK was taken first; the responder figure is the true T4 - T3. |
| `Provenance.TimestampsAreSteps` | internal/probe/prober.go:486-625 | In such runs each of the six timestamps of an OK result is the clock reading at the step of this very probe it stands for: post, transmission, receipt and first answer by the responder, arrival of an ACK of its own handed to its session, and the end of its call. These are in causal order, and all three figures are true elapsed times, none negative. |
| `ProtocolTheorems.OtherResults` | internal/probe/prober.go:479-533 | In every run a result that is not OK is TIMEOUT or ERROR and has no T3, T4, T6 or figures; a timed-out one has its own T1 and T2 and has T5 exactly if an ACK was taken; a failed one has the same, or no timestamps. |
| `ProtocolTheorems.RoundTripIff` | internal/probe/prober.go:536-565 | In such runs the network figure equals the transit of the probe plus the transit of the ACK that set T5 if and only if that is the first ACK or both ACKs left together; otherwise it exceeds it by exactly the time between their departures. |
| `SecondAckFirst.GapShows` | internal/probe/prober.go:545-565 | For all clocks there is a run in which the second ACK alone sets T5 and the network figure is one although both transit times are zero. |
| `ProtocolTheorems.OkResultsComplete` | internal/probe/prober.go:486-646 | In every run no published result is UNKNOWN, and every OK result has all six timestamps and the figures computed from them: the "not found" and "missing timestamps" branches are not taken. |
| `ProtocolTheorems.LookupOverRuns` | internal/probe/prober.go:1048-1097 | At every interleaving point of every run the indexed lookup returns exactly the one live session with that number and target GID, or none, and so does the plain scan, whatever the map order. |
| `ProtocolTheorems.SplitLookup` | internal/probe/prober.go:1050-1054 | Even if the index is read at one point of a run and the session map at a later one, a session is found if and only if the one with that number is live at the second, and then that one. |
| `ProtocolTheorems.StoreNeverOverwrites` | internal/probe/prober.go:998-1000 | In every run, storing a session never meets an existing entry with its key. |
| `ProtocolTheorems.ClosedAtMostOnce` | internal/probe/prober.go:1007-1023 | In every run the channels of a session are closed at most once; before Close only one remover ever tries, and a live session is open. |
| `ProtocolTheorems.Accounting` | internal/probe/prober.go:998-1004 | In every state of every run SessionsCreated is the number of probes that succeeded, timed out, failed, had no queue or are in flight, each counter being the number of calls that ended that way; ACKs sent are at most twice the probes received. |
| `ProtocolTheorems.OneResultPerProbe` | internal/probe/prober.go:461-653 | In every run the calls that have published and the published results correspond one to one. |
| `ProtocolTheorems.IdentsStable` | internal/probe/prober.go:289-300 | Number, GIDs, label, key and creation time of a session never change along a run. |
| `ProtocolTheorems.InvStep` | internal/probe/prober.go:269-654 | Every enabled step keeps the whole invariant: table, closing, wire, channels, counters, published results and ACK accounting. |
| `Effects.StartOverRuns` | internal/probe/prober.go:283-300 | In every run a started probe gets the next number and a session with its own source, target, label, key and creation time and two empty, open channels; nothing else changes. |
| `Effects.HandleOverRuns` | internal/probe/prober.go:914-982 | In every run a handled ACK goes into the empty slot of its type if the session it is handed to is open and the completion was successful; a full slot keeps its event, the other slot, other sessions and the maps never change. |
| `Effects.TakeOverRuns` | internal/probe/prober.go:500-562 | In every run taking an ACK empties its channel only; the call keeps the first event of each kind, and T5 is set by the first of all. |
| `Effects.GiveUpOverRuns` | internal/probe/prober.go:461-533 | In every run a call without a queue or whose send failed concludes with an error and no timestamps, one that sees its channel closed with an error, and one whose context ended with a timeout, both with T1, T2 and, if an ACK was taken, T5. |
| `Effects.PublishOverRuns` | internal/probe/prober.go:653-653 | In every run publishing appends the call's own result, and nothing else changes what was published. |
| `Effects.TableStepsOverRuns` | internal/probe/prober.go:998-1023 | In every run each of the map writes of addSession, of a remover and of Close changes exactly its own entry, and each closing exactly its own session, which keeps what its channels hold. |
| `Effects.RemovalLeads` | internal/probe/prober.go:1007-1023 | A live session whose call has published, or that is older than five minutes, can be removed by its three steps, leaving the table as removeSession does. |
| `Effects.CountersOverRuns` | internal/probe/prober.go:461-575 | In every state of every run each counter is the number of steps of its own kind so far: sessions created, OK, timed out, failed, without queue, ACKs found and not found, probes received, ACKs sent. |
| `Effects.FoundByLabel` | internal/probe/prober.go:869-895 | In every run an ACK counts as found by label exactly if the session it is handed to has the label seen. |
| `TableRuns.TabStep` | internal/probe/prober.go:998-1023 | Every step keeps both maps naming sessions only by their own keys, and keeps unstored sessions out of the map. |
| `TableRuns.CloseStep` | internal/probe/prober.go:157-187 | Every step, including those of Close, keeps removal exclusive and closing counted at most once per session. |
| `WireRuns.NetStep` | internal/rdma/packet.go:196-202 | Every step keeps each packet, responder record and ACK derived from the probe it names, in causal order, and each call consistent with what its packet did. |
| `EventRuns.ChanStep` | internal/probe/prober.go:932-966 | Every step keeps only type-1 ACKs in the first channel and only type-2 ACKs in the second, received after the responder sent them, and T5 equal to the receive time of an ACK taken. |
| `EventRuns.RoutedStep` | internal/probe/prober.go:869-886 | A step that handles no ACK under another live session's label keeps every event with its own session. |
| `CountRuns.CountStep` | internal/probe/prober.go:502-520 | Every step moves a call and its counter together. |
| `CountRuns.AckStep` | internal/probe/prober.go:767-845 | ACKs sent plus ACKs still owed never exceed twice the probes received; ACKs are never answered. |
| `Progress.CallAdvances` | internal/probe/prober.go:486-567 | Each step of a call brings it closer to its result, except taking an ACK of a type it already has. |
| `Progress.NeverBack` | internal/probe/prober.go:269-654 | No step of the system sets any call back. |
| `Progress.AtMostEight` | internal/probe/prober.go:269-654 | In every run a call takes at most eight steps that bring it closer to its result. |
| `Progress.StuckIff` | internal/probe/prober.go:486-653 | In every state of every run a call can take no step of its own if and only if it has published, or holds its result before a full or closed results channel, or waits for the network before its context ends; once the context has ended only the first two are left. |
| `Progress.PublishesIff` | internal/probe/prober.go:653-653 | In every run a call whose context has ended can reach its published result by its own steps, within its rank, if and only if it has done so or the results channel is open and has room. |
| `Progress.OutboxOverRuns` | internal/probe/prober.go:86-98 | In every run the results channel holds at most 1000 results, never more than were published, and is closed only after Close began. |
| `BlockedRuns.FullChannelBlocks` | internal/probe/prober.go:338-339 | For all clocks there is a run in which 1000 results wait unread and the next probe holds its result and can take no step, although Close has not begun. |
| `BlockedRuns.ClosedChannelBlocks` | internal/probe/prober.go:184-184 | For all clocks there is a run in which Close closes the results channel before a probe has published, and that probe can take no step. |
| `Misrouting.SharedLabelMisattributes` | internal/probe/prober.go:869-875 | From any state with room in the results channel in which a waiting session shares a label with both ACKs of another probe, six steps later it has published a complete OK result with the other probe's T3 and T4. |
| `SharedLabelRun.LabelsMustDiffer` | internal/agent/serviceflowmonitor/serviceflowmonitor.go:306-313 | For all clocks there is a run from the initial state with two label-0 probes in which the first ends OK and complete although no responder received it. |
| `Sessions.LookupRefinesScan` | internal/probe/prober.go:1048-1097 | For every consistent table an outcome is allowed by the indexed lookup if and only if it is the live match, and likewise for the scan. |
| `Sessions.MisrouteIff` | internal/probe/prober.go:869-886 | An ACK can be handed to another probe's session if and only if another live session has the label it arrived with. |
| `Sessions.RouteExact` | internal/probe/prober.go:869-886 | If no other live session has the label an ACK arrived with, the ACK is handed to its own session if and only if that is live and has the label or the source GID seen, and to none otherwise. |
| `Sessions.KeysUnique` | internal/probe/prober.go:283-301 | Two session objects never have the same key. |
| `Sessions.RemovedIsThreeSteps` | internal/probe/prober.go:1008-1021 | Removing a live session as one operation equals LoadAndDelete, index delete and close in turn. |
| `Sessions.RemovedKeepsInv` | internal/probe/prober.go:1007-1023 | Removing any set of sessions keeps the table consistent and leaves exactly the other live sessions live. |
| `ProberObject.Prober.AddSession` | internal/probe/prober.go:283-301 | The new session has the next number, the given source, target, label and creation time, their key, and empty, open channels; both maps get exactly its entry; looking up its number and target finds it, its label is found, and it has not expired within five minutes; every session live before still is, under its own key. |
| `ProberObject.Prober.RemoveSession` | internal/probe/prober.go:1007-1023 | Exactly the session of that key leaves both maps and is closed, keeping what its channels hold; an unknown key changes nothing. |
| `ProberObject.Prober.GetSessionByFlowLabel` | internal/probe/prober.go:1034-1045 | Returns some live session with the label, and none only if there is none. |
| `ProberObject.Prober.FindSessionByPacketInfo` | internal/probe/prober.go:1048-1097 | Returns exactly the live session with that number and target, or none. |
| `ProberObject.Prober.HandleIncomingRDMAPacket` | internal/probe/prober.go:859-990 | The ACK goes to a session the label-then-number rule allows: an empty slot of its type takes it if the session is open and the completion successful, a full slot keeps its event, nothing else changes; it is counted once, by label exactly if some live session has the label, else by number or as not found. |
| `ProberObject.Prober.CleanupExpiredSessions` | internal/probe/prober.go:1123-1156 | Exactly the live sessions older than 300 s are removed and closed, and counted; the others stay live and unchanged. |
| `ProberObject.Prober.Close` | internal/probe/prober.go:162-182 | Every live session is closed once, others are untouched, and both maps end empty. |
| `Keys.SessionKeysDiffer` | internal/probe/prober.go:264-266 | Session keys of different sequence numbers differ for arbitrary GID text, even with ":" or "->" in it. |
| `Keys.SessionKeyFormat` | internal/probe/prober.go:264-266 | The key of probe 12 from fe80::1 to fe80::2 is "fe80::1->fe80::2:12". |
| `Keys.FlowKeyInjective` | internal/agent/serviceflowmonitor/serviceflowmonitor.go:33-35 | For source GIDs written in hex digits, colons and dots, two flow keys are equal if and only if all four fields are. |
| `Keys.FlowKeyCollision` | internal/agent/serviceflowmonitor/serviceflowmonitor.go:33-35 | Without that restriction two different flows can have the same key. |
| `Waiting.ConcludeIsComplete` | internal/probe/prober.go:570-646 | With typed channels the result is OK with the given T1, T2 and T6, T3 from the type-1 ACK, T4 from the type-2 ACK, whichever came first, T5 as the loop set it, and the three figures of these six. |
| `Waiting.AwaitAcks` | internal/probe/prober.go:479-575 | The loop ends OK exactly when both kinds of ACK came before any timeout or closing; it keeps the first event of each kind, T5 is the receive time of the very first event and never overwritten, T6 is the time given; with typed events the figures are those of the six timestamps; otherwise the result has T1, T2, perhaps T5, and nothing else. |
| `Nanoseconds.StampRoundTrip` | internal/rdma/packet.go:629-633 | A time stored as uint64 nanoseconds and read back through int64 is unchanged if and only if it fits in int64. |
| `Nanoseconds.FiguresExactIff` | internal/probe/prober.go:620-625 | For stamps since 1970 the figures in saturating and wrapping 64-bit arithmetic are the true ones if and only if the true network and prober figures fit. |
| `Nanoseconds.FiguresExactInOrder` | internal/probe/prober.go:620-625 | They are exact whenever T1 is before T6, T2 before T5 and T3 before T4, whatever the offset between the clocks. |
| `Nanoseconds.FiguresAddUpInt64` | internal/probe/prober.go:620-625 | Even when they wrap, the three figures add up to T6 - T1 in int64 arithmetic. |
| `Responder.Loop.HandlePacket` | internal/probe/prober.go:767-845 | At most two ACKs per probe and none for ACKs or unusable sources; what is sent is a prefix of the two ACK packets of the step system, and the second is sent only after the first completed and carries that completion time as T4. |
| `UploadQueue.ConservedOverRuns` | internal/upload/uploader.go:219-374 | In every run with one upload in flight the items added split exactly into acknowledged, in flight, queued and dropped, and the first three in that order are a subsequence of the order of addition. |
| `UploadQueue.StepKeeps` | internal/upload/uploader.go:219-374 | Every step, from any state where that holds, keeps it; each method on slices is one such step. |
| `UploadQueue.RequeueBound` | internal/upload/uploader.go:266-283 | Putting a batch back keeps the whole batch and a newest suffix of the queue; the length is min(batch + queue, limit) if and only if the batch fits the limit. |
| `UploadQueue.RequeuedKeepsNewest` | internal/upload/uploader.go:266-283 | What a failed upload leaves is the whole batch followed by a suffix of the queue, as long as fits, none if the batch alone fills the limit. |
| `UploadQueue.PathsBound` | internal/upload/uploader.go:286-290 | Path infos after a failed upload are a prefix of batch followed by queue of length min(batch + queue, 100). |
| `UploadQueue.BoundedIff` | internal/upload/uploader.go:266-283 | In every run with these settings each failed upload leaves exactly min(batch + queue, limit) results, if and only if the batch size is at most the limit. |
| `UploadQueue.LossOnlyOnOverflow` | internal/upload/uploader.go:266-291 | A step loses something if and only if it puts a batch back that does not fit together with a non-empty queue, or path infos beyond one hundred. |
| `UploadQueue.LoggedDroppedIff` | internal/upload/uploader.go:279-281 | The number logged as dropped is the number dropped if and only if nothing could be kept and the excess of the batch happens to equal the queue length. |
| `SliceUploader.CopyBehind` | internal/upload/uploader.go:283-286 | An append within capacity whose source overlaps the destination further back yields the concatenation of the old contents and changes no other cell. |
| `SliceUploader.Append` | internal/upload/uploader.go:283-286 | The result is the concatenation of the old contents, in the same array or a new one, and no cell before the end of the first slice changes. |
| `SliceUploader.RetryQueue.Add` | internal/upload/uploader.go:156-161 | The item is appended to the queue and the batch in flight keeps its contents although both may share one array: the Add step of the sequence model. |
| `SliceUploader.RetryQueue.Take` | internal/upload/uploader.go:232-250 | The first min(queue, batch size) items become the batch and the rest stays queued, without copying: the Take step of the sequence model. |
| `SliceUploader.RetryQueue.PutBack` | internal/upload/uploader.go:313-324 | Trimming and the overlapping append leave exactly the batch followed by the kept suffix: the PutBack step of the sequence model. |
| `SliceUploader.RetryQueue.PutBackPaths` | internal/upload/uploader.go:326-330 | Path infos become the prefix of batch followed by queue of length min(batch + queue, 100): the PutBackPaths step of the sequence model. |
| `SliceUploader.Uploader.AddProbeResult` | internal/upload/uploader.go:156-179 | The result is appended, nothing else changes, and an upload is triggered exactly when the limit is reached. |
| `SliceUploader.Uploader.BeginUpload` | internal/upload/uploader.go:219-254 | Takes at most a batch of results and all path infos, or reports that there is nothing. |
| `SliceUploader.Uploader.Fail` | internal/upload/uploader.go:262-367 | All three failure paths put results back whole in front of the newest that fit and keep the first hundred path infos; a client is left only when the analyzer rejected the data. |
| `UDQueues.CreditsOverRuns` | internal/rdma/cq.go:122-157 | In every run of a slot the credit law holds; while posts are accepted and completions succeed the slot never runs dry, and with only full-size ACKs it has exactly one receive posted or awaiting handling. |
| `UDQueues.CreditsExactlyOneIff` | internal/rdma/packet.go:479-527 | A slot has exactly one receive posted or awaiting handling all along a run if and only if every event is neutral: no accepted repost by ReceivePacket, no too-small packet whose two reposts both succeed or both fail, no refused repost of a full-size packet, no failed receive. |
| `UDQueues.UDQueue.ProcessRecv` | internal/rdma/cq.go:127-397 | A successful receive goes to the ACK handler, the channel or nowhere according to size, queue type and packet kind; its slot is reposted once, or twice when the packet is too small; a WRID that is no slot makes two fallback posts, but no WRID ever posted is one, so the fallbacks are not taken for completions; the credit law is kept. |
| `UDQueues.UDQueue.ProcessRecvError` | internal/rdma/cq.go:169-186 | A failed receive is not reposted: its slot loses one credit. |
| `UDQueues.UDQueue.ReceivePacket` | internal/rdma/packet.go:428-529 | The oldest queued packet is taken and its slot posted once more, unless its GRH is bad; whatever was queued is full-size and has a slot, so deserialization never fails and no fallback post is made. |
| `UDQueues.UDQueue.ParsePacket` | internal/rdma/packet.go:451-527 | For any completion: bad GRH, payload too short, or packet, exactly by flag and length; the last two post the slot again, or the next slot in turn if the WRID is no slot. |
| `UDQueues.UDQueue.PostRecv` | internal/rdma/packet.go:133-141 | The next slot in turn is posted and the credit law is kept. |
| `UDQueues.UDQueue.GetNextSendSlot` | internal/rdma/packet.go:144-152 | With oldest-first completion the slot handed out still belongs to an unfinished send if and only if as many sends as slots are outstanding; its WRID is in the send range and never one of a receive. |
| `UDQueues.UDQueue.PostRecvSlot` | internal/rdma/packet.go:110-130 | Only WRIDs of receive slots are ever posted, and a refused post is accounted for. |
| `UDQueues.UDQueue.PostInitial` | internal/rdma/queue.go:205-219 | Queue creation succeeds if and only if every post is accepted, and then every slot has exactly one receive. |
| `UDQueues.UDQueue.constructor` | internal/rdma/queue.go:153-172 | Both buffers have 32 slots and slot i starts at base + i * (4096 + 40). |
| `UDQueues.SlotsDisjoint` | internal/rdma/queue.go:391-397 | Slot regions of a buffer, each with room for the 4096 + 40 bytes of a posted receive, are pairwise disjoint and inside the allocated 32 * 4136 bytes. |
| `Pinglist.HashGidPair` | internal/controller/pinglist/pinglist.go:167-175 | The wrapping 32-bit loop computes the unbounded base-31 polynomial of the joined text modulo 2^32. |
| `Pinglist.PairPoly` | internal/controller/pinglist/pinglist.go:167-175 | The polynomial of gid1 ":" gid2 from those of the parts. |
| `Pinglist.ParametersFromPoly` | internal/controller/pinglist/pinglist.go:141-164 | Label, port and priority are the unbounded polynomial reduced modulo 2^20, 2^14 and 8, in the 20-bit field of section 3 of RFC 8200 and the dynamic range of section 6 of RFC 6335. |
| `Pinglist.SamePairLabels` | internal/controller/pinglist/pinglist.go:149-155 | Two indices of one requester-target pair give the same label if and only if 131072 divides their difference. |
| `Pinglist.LastCharLabelsIff` | internal/controller/pinglist/pinglist.go:64-77 | For every requester and prefix, labels of targets that differ at most in the last GID character are distinct in a list of n rows if and only if n is at most 7340. |
| `Pinglist.LowerCaseLabelsIff` | internal/controller/pinglist/pinglist.go:64-77 | The same for GIDs in lower case: if and only if n is at most 19923. |
| `Pinglist.PrintedGidLabelsIff` | internal/controller/pinglist/pinglist.go:64-77 | The same for the last characters a printed GID can have, lower-case hex digits and colon: if and only if n is at most 34603. |
| `Pinglist.AsciiLabelsIff` | internal/controller/pinglist/pinglist.go:64-77 | The same for arbitrary ASCII characters: if and only if n is at most 5243. |
| `Pinglist.Generate` | internal/controller/pinglist/pinglist.go:52-119 | One target per registry row in order, without the requester for ToR-mesh; with p the polynomial of requester and target, its port is 49152 + p mod 16384, its label (p + 1000 * row) mod 1048576 for the row's own index, its priority p mod 8. |
| `ServiceFlows.MapIsLiveFlows` | internal/agent/serviceflowmonitor/serviceflowmonitor.go:180-284 | For every history of events with their lookups: the map holds exactly the flows whose QP established them and was not destroyed since, one entry each, after every event and for every iteration order, if and only if no added flow is already another QP's and every destroyed QP has at most one flow, stored under the source its DESTROY resolves to, under which no other QP has one. |
| `ServiceFlows.DestroyExactIff` | internal/agent/serviceflowmonitor/serviceflowmonitor.go:245-273 | A DESTROY leaves exactly the flows of other sources if and only if the source it resolves to had at most one flow. |
| `ServiceFlows.ReconnectLeavesStaleFlow` | internal/agent/serviceflowmonitor/serviceflowmonitor.go:262-272 | For any two establishing events of one QP with different flows and its DESTROY: no flow is live, yet every reachable map holds one, whichever entry the iteration meets first. |
| `ServiceFlows.OtherSpellingLeavesStaleFlow` | internal/agent/serviceflowmonitor/serviceflowmonitor.go:187-258 | A flow stored under a locally looked-up GID stays in every reachable map when its QP's DESTROY carries the GID in another spelling. |
| `ServiceFlows.UnresolvedDestroyRemovesNothing` | internal/agent/serviceflowmonitor/serviceflowmonitor.go:246-266 | After any history a DESTROY whose zero source GID cannot be resolved removes nothing. |
| `ServiceFlows.Monitor.HandleEvent` | internal/agent/serviceflowmonitor/serviceflowmonitor.go:149-284 | A valid MODIFY to state 3 with a resolved source, a destination QP and GID stores that flow under its key; a valid DESTROY removes at most one flow of its QP number and resolved source; anything else, and an unresolved DESTROY, changes nothing. After every event the prober's list holds exactly one target per active flow. |
| `ServiceFlows.Monitor.GetServiceTracingTargets` | internal/agent/serviceflowmonitor/serviceflowmonitor.go:288-318 | One target per flow, each flow once, in whatever order the map is read; each sends to the flow's destination GID and QP with the flow as its tuple and label 0. |
| `Scheduler.RoundRobinIsFair` | internal/monitor/cluster_monitor.go:67-90 | k calls on n targets serve each position floor(k/n) or ceil(k/n) times. |
| `Scheduler.ServedAt` | internal/monitor/cluster_monitor.go:75-77 | The list of positions served is the iterated advance of currentIndex. |
| `Scheduler.ProbeScheduler.UpdateTargets` | internal/monitor/cluster_monitor.go:36-63 | The list is replaced, the round starts over, and exactly the listed GIDs have a limiter. |
| `Scheduler.ProbeScheduler.GetNextTarget` | internal/monitor/cluster_monitor.go:67-90 | The next position in turn is served and its limiter always exists. |
| `Scheduler.ProbeScheduler.UpdatePinglist` | internal/monitor/cluster_monitor.go:166-250 | A row is scheduled, in order and with its own fields, exactly if both RNICs are there, the target is on another host, and the two are not link-local GIDs on different devices, the source device being the row's or the local one of that GID; kept plus skipped is received; the update panics exactly when a row on another host has a GID of four bytes. |
| `Scheduler.KeepsRule` | internal/monitor/cluster_monitor.go:174-213 | The decision on one row is that rule, and panics exactly on such a row. |
| `Scheduler.ProbeScheduler.Work` | internal/monitor/cluster_monitor.go:291-392 | The worker serves the round fairly; a served target is probed exactly if it is not on the local host, not its own source, and its source is a local RNIC with a queue, and the probe is typed by whether the target is in the local ToR. |
| `Scheduler.SkipRule` | internal/monitor/cluster_monitor.go:254-288 | A row is skipped exactly when both GIDs start with fe80: or FE80: and the devices differ; the test panics exactly on four-byte GIDs. |

## Left out

- That each send wait ends with its own completion is assumed: no waiter checks the WRID of what it takes from the
  completion channel (internal/rdma/packet.go:250, 583, 654).
- ServiceFlows.Monitor.HandleEvent: requires that a local lookup yields nothing or a GID in text that is not all zero,
  because that is what RNIC discovery stores.
- Looking a session up and delivering the ACK is one atomic step; the race of the send with closing
  (internal/probe/prober.go:956-963 against 1013-1021) is not modelled.
- The SessionsCreated counter moves in the same step as the index write that precedes it.
- T2 and T4 are taken to be the instants at which the NIC sent the packet; the delay between sending and its completion
  stamp is not modelled.
- That the process dies when a probe sends its result on the closed results channel; the model only says that it does
  not publish.
- The step system uses unbounded integers for times and sequence numbers; wrap-around of times is the subject of
  `Nanoseconds`, wrap-around of the sequence number after 2^64 probes and of the slot counters is not modelled.
- Buffer contents: that a queued packet's slot is reposted before the packet is read can let the NIC overwrite it;
  only the credits are modelled, not the bytes.
- GIDs are opaque text; GRH parsing and GID formatting are not modelled, and lengths are counted in characters.
- Overlapping uploads, the shutdown of the uploader and any promise to drain it on close.
- What Connect does to establish a connection; only its outcome is a parameter.
- How much room a reallocating append takes is a parameter.
- libibverbs, queue-pair state changes and the completion poller's start and stop: only posted and completed work
  requests are modelled.
- The eBPF program, event validation, the registry's queries, the controller lookup of an IP, rate-limiter timing,
  gRPC, telemetry, configuration, traceroute and the analyzer.
