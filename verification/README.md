# Chute, modelled and proved

Chute tunnels public HTTP connections to agents over one WebSocket each. This project models
its two protocol cores and the parsing and arithmetic that feed them, and proves what they
promise.

**The multiplexer** (`src/chute/mux.py`, `_relay.py`, `protocol.py`). `MuxSpec` is one end as a
value with its atomic steps: the code between two awaits, in any interleaving of tasks.
`MuxInvariant`, `StreamLife`, `Changes`, `Outcomes` and `WholeRuns` hold for an arbitrary peer: what
every step keeps, what each frame and call comes to, and what a run can come to. `Channel`,
`Effects`, `Receiving` and `Endpoints` put two ends on two FIFO channels, and `Guarantees`, `Pipes`,
`Progress`, `Backstops`, `Overload` and `Arrivals` prove credit conservation, refinement to
independent byte pipes, freedom from deadlock and lost wakeups, exactly when the receive backstops
can fire, and that what one end says is acted on at the other. `MuxClasses` is the code itself,
`Stream` and `Mux` objects with mutable fields, proved to take the same steps.

**The relay** (`src/chute/server.py`). `RelaySpec` is the tunnel registry with its budgets and no
reverse indexes: every question is a scan. `RelayInvariant`, `RelayHistory`, `RelayBudgets`,
`RelayTidy`, `RelayStranded`, `RelayAdmission` and `RelayLeases` prove its whole-run properties.
`RelayIndex` and `RelayClass` are the code, an object with dictionaries, indexes and loops, proved
to take the same steps and to keep every index exact.

**Both together.** `Tunnels` runs the relay with the multiplexers of all its tunnels: what is booked
for an account is what its multiplexers hold.

**What is joined to them.** `Bandwidth` (the byte-rate schedule), `Limiter` (sliding windows),
`RequestHead` and `Routing` (the strict head parser and Host routing: section 7.2 of RFC 9110;
sections 3, 3.2, 5.1 and 5.2 of RFC 9112), `PolicyFile`, `PolicyMeaning` and `ControlPlane` (the
policy file, what it says, and its last-good cache). `Text`, `Names` and `Wire` are shared
vocabulary.

## How to read it

- A step is what a task does between two awaits. Timeouts (a credit stall, a write stall, a drain
  deadline) are steps that may happen at any time.
- Objects that the program compares by identity (streams, registrations) are numbered in creation
  order; registries map ids and labels to those numbers.
- History fields (`hist` of a stream, ghost in the classes) record what the program does not keep;
  no step reads them, except that the pump's current chunk (`held`) decides what it acks.
- The account's buffer callback, the reconnect limiter, the clock, random labels and the JSON and
  IPv6 parsers are parameters, so the theorems hold for all of their answers.

## Where code and documentation differ

- `src/chute/mux.py:26` says that a compliant peer never approaches any backstop. True of the
  stream caps; of the connection caps exactly while stream limit times window is at most
  1,048,576 (`Overload.CanTripIff`). At the defaults, five streams filled byte by byte reach the
  frame cap.
- `src/chute/server.py:2455-2460` is documented as not growing the relay past its cap. Entries can
  exceed it while a label is reclaimed (`RelayTidy.EntriesExceedLimit`), and only by reclaiming one
  when the relay is full (`RelayHistory.StepEntriesIff`); distinct labels cannot
  (`RelayHistory.EntriesWithinLimit`).
- A pushed budget or a schedule can outlive its account's work after a pending slot goes
  (`RelayTidy.BudgetOutlivesPending`); exactly which steps leave one behind is
  `RelayStranded.StepTidyIff`.
- The last-good guard of the policy file (`src/chute/control.py:374-407`) catches one kind of error.
  A reading that breaks off with an error of the operating system is of another
  (`src/chute/_files.py:66-82`), so `LoadPolicy` fails though a good policy is held. Of the contents,
  two kinds get past it and no other (`PolicyFile.FileFailsIff`): a well-formed file whose first bad
  credential has `"max_tunnels": null` behind a good id, hash and account fails an assertion
  (`ControlPlane.NullTunnelsEscapes`), and text nested past the interpreter's recursion limit raises
  an error that `src/chute/control.py:443-446` does not catch, though `src/chute/server.py:1606`
  does for a hello.
- `src/chute/auth.py:54` promises an aggregate rate for the account. It holds over any run in which
  no chunk comes to a dropped schedule before that would have been free (`Bandwidth.PacedIff`,
  `RunRateBound`); an agent that goes and comes back passes it (`Bandwidth.GapPassesBound`).
- A policy file accepts any positive `lease_seconds`; one whose end no date can name makes admission
  and renewal raise (`StaticPolicyControlPlane.AdmitTunnel`, `RenewLease`).
- A refused OPEN is not always answered: a run is `StreamLife.RefusalDropped`, the condition
  `StreamLife.RefusalAnsweredIff`.

## Model

| member | source | states |
|---|---|---|
| Wire.UnpackPack | src/chute/protocol.py:25-50 | the big-endian 32-bit stream id and credit read back as written |
| Wire.DecodeEncode | src/chute/protocol.py:48-63 | every frame survives encoding and decoding |
| Wire.EncodeDecode | src/chute/protocol.py:48-63 | a message decodes iff it holds the 5-byte prefix, and re-encoding gives the same bytes: the codec is a bijection |
| MuxInvariant.StepKeeps | src/chute/mux.py:257-858 | for any step, any frame and any peer: connection counters equal the sums over streams, a closed stream counts nothing, all four caps hold, one terminal per lane with nothing after it, a stream is registered iff not closed, initiator ids are 1, 2, 3, ..., `on_goaway` fires at most once, a parked sender has no credit, a parked drain has streams to wait for |
| MuxInvariant.RunKeeps | src/chute/mux.py:257-858 | the same over whole runs, whatever the interleaving |
| MuxInvariant.InitInv | src/chute/mux.py:453-505 | a new connection satisfies the invariant for every valid window |
| MuxInvariant.FinishKeeps | src/chute/mux.py:847-858 | after the clean-up of `run` nothing is registered and no stream holds a buffered byte, so both counters are zero |
| MuxInvariant.FeedKeeps | src/chute/mux.py:340-382 | an arriving frame keeps the accounting exact whether it is dropped, queued or trips a backstop |
| MuxInvariant.ReadKeeps | src/chute/mux.py:313-327 | a read keeps the accounting exact, including the reads that drain a closed stream |
| MuxInvariant.CloseKeeps | src/chute/mux.py:425-442 | tearing down settles the counters once and deregisters |
| StreamLife.StepAdvances | src/chute/mux.py:257-442 | a lane leaves OPEN once and its queue history is then frozen; ids are constant; what was sent or read only grows; nothing is sent after `send_eof` |
| StreamLife.RunAdvances | src/chute/mux.py:257-442 | the same over whole runs |
| StreamLife.Isolated | src/chute/mux.py:717-858 | a step changes no stream but its own |
| StreamLife.CloseDeregistersOnlyItself | src/chute/mux.py:425-442 | tearing an old stream down never deregisters a later one, even for a peer that reuses ids |
| StreamLife.RunDrains | src/chute/mux.py:507-577 | once either GOAWAY flag is set, the set of live streams only shrinks |
| StreamLife.FramesFitTransport | src/chute/mux.py:85-171 | every frame ever sent fits in one WebSocket message |
| StreamLife.RefusalDropped | src/chute/mux.py:642-643 | a run on which a refused OPEN is forgotten: room for one stream, three OPENs |
| StreamLife.RefusalAnsweredIff | src/chute/mux.py:639-653 | a refused OPEN is answered exactly when one is already queued for the id or the set of pending resets has room |
| Endpoints.SysStepKeeps | src/chute/mux.py:257-858 | every step of either end and every delivery keeps the two-endpoint invariant (what each end says it sent is in its log; what it heard is the delivered prefix) |
| Endpoints.SysRunKeeps | src/chute/mux.py:257-858 | the same over whole runs of the two ends |
| Guarantees.CreditConservation | src/chute/mux.py:257-382 | for every stream known to both ends and both directions: window left, bytes in flight, queued, read but not acked, batched, returning, and lost come to exactly the negotiated window while both objects live, and to no more once one is gone |
| Guarantees.NothingLost | src/chute/mux.py:329-382 | while the links are up only a stream that a backstop has reset loses credit |
| Guarantees.HalfWindowReturned | src/chute/mux.py:463-472 | with nothing in flight and everything acked the sender lacks less than half the window, and has at least one byte of credit, for every window |
| Guarantees.ParkedSenderCanMove | src/chute/mux.py:268-292 | no deadlock: a parked sender always has a delivery, a read, an ack or its own wake-up enabled |
| Progress.WakesForth | src/chute/mux.py:268-338 | from every reachable state there is a schedule of deliveries and of the peer consumer alone, of bounded length, that makes the parked sender of the initiator wakeable, unless the stream or the connection has been torn down |
| Progress.WakesBack | src/chute/mux.py:268-338 | the same for the responder |
| Guarantees.StreamsArePipes | src/chute/mux.py:257-396 | bytes read are a gap-free prefix of the bytes the peer put in DATA frames; a direction ended by the peer's EOF frame and signalled was FIN and complete; FIN on a stream not torn down locally comes from an EOF frame |
| Pipes.StepRefinesPipes | src/chute/mux.py:257-858 | refinement: every step of the two ends is, on every stream id and direction, one step of an independent FIFO byte pipe or nothing |
| Backstops.CompliantPeerMeetsNoBackstop | src/chute/mux.py:340-382 | data from a compliant peer never passes the stream byte or frame cap; with k live streams it cannot pass the connection byte cap while k windows fit in 64 MiB, nor the frame cap while they come to at most 1,048,576 |
| Overload.CanTripIff | src/chute/mux.py:26-31 | "a compliant peer never approaches any backstop" holds exactly while stream limit times window is at most the connection frame cap; beyond that a run of two compliant ends trips it, and the defaults are beyond |
| Overload.CanTripBytesIff | src/chute/mux.py:126-130 | the byte cap by itself can be reached by compliant ends exactly when stream limit times window is over 64 MiB and the window is at least 64 bytes |
| Guarantees.CreditBeforeOpen | src/chute/mux.py:507-535 | the same sum for a stream the other end does not know: window left, in flight and discarded there come to the window, and nothing is discarded while the OPEN is in flight |
| Progress.EveryScheduleForth | src/chute/mux.py:268-338 | every sequence of deliveries and reads and acks of the peer ends within the work there was, and where none is left the parked sender of the initiator can be woken or has been torn down |
| Progress.EveryScheduleBack | src/chute/mux.py:268-338 | the same for the responder |
| MuxInvariant.FinishAnyOrder | src/chute/mux.py:847-858 | the clean-up of `run` comes out the same in whatever order it takes the streams |
| Changes.StepExplained | src/chute/mux.py:257-858 | a step changes a stream in one of ten named ways or not at all, and only a step that is for that: only its owner closes it, only an EOF frame ends it cleanly, only a reset, the end of the connection or a frame for it aborts it |
| Changes.StepTells | src/chute/mux.py:507-653 | a step sends exactly the OPEN, EOF, RESET or GOAWAY it owes, a queued refusal included, while the link is up, and otherwise at most one frame of data or, from an ack, of credit |
| Changes.StepOutlasts | src/chute/mux.py:507-577 | the configuration, a dead link and either GOAWAY are for life; only `goaway` and the GOAWAY frame set the flags |
| Outcomes.AbortingFrame | src/chute/mux.py:777-826 | RESET, an EOF with a payload and credit of the wrong size close the stream and end an open direction as an abort, never as a clean end; the two malformed ones are answered if there is room |
| Outcomes.DataIff | src/chute/mux.py:340-382 | data for an open direction is queued exactly when two windows of bytes, a window of frames, 64 MiB, 1,048,576 frames and the account allow it, and otherwise ends the direction as an abort |
| Outcomes.EmptyData | src/chute/mux.py:343-349 | empty data does nothing |
| Outcomes.IgnoredIff | src/chute/mux.py:695-846 | exactly what cannot be acted on is ignored and counted, and the 65,536th such message breaks the link |
| Outcomes.EofFrame | src/chute/mux.py:384-396 | a clean EOF ends an open direction behind all that is queued and touches nothing else |
| Outcomes.CreditFrame | src/chute/mux.py:790-817 | credit opens the window up to 2^31 - 1 and wakes the sender; credit of zero does neither |
| Outcomes.GoawayFrame | src/chute/mux.py:829-844 | the first well-formed GOAWAY makes the connection drain and is reported once; later ones are ignored |
| Outcomes.AcceptedIff | src/chute/mux.py:734-768 | a plain OPEN makes a stream, fresh and with a full window, exactly when this end answers, is not draining, the id is free and there is room |
| Outcomes.OpenedIff | src/chute/mux.py:507-535 | `open` makes a stream exactly when neither side drains, there is room and ids are left; it is usable and announced exactly when the link is up |
| Outcomes.SendIff | src/chute/mux.py:268-293 | a pass of `send` puts out all its bytes, all its credit or a full message, whichever is least; without credit it parks |
| Outcomes.AckIff | src/chute/mux.py:329-338 | an ack returns everything gathered in one frame exactly when that is half the window |
| Outcomes.ClosedIsSilent | src/chute/mux.py:257-338 | a closed stream says nothing more |
| Outcomes.OwnerEnds | src/chute/mux.py:406-442 | `close` ends an open direction cleanly and says nothing, `reset` ends it as an abort and tells the peer, and on a closed stream neither does anything |
| Outcomes.RefusalSent | src/chute/mux.py:646-651 | a queued refusal is sent once, as a RESET of its id |
| Outcomes.GoawayCall | src/chute/mux.py:542-548 | `goaway` tells the peer, and from then on nothing is opened or accepted |
| Outcomes.DrainWaitsIff | src/chute/mux.py:550-566 | a pass of `drain` waits exactly while there are streams |
| WholeRuns.FinMeansEof | src/chute/mux.py:384-404 | in any run, a stream that was announced and that its owner has not closed ends cleanly exactly by the peer's EOF frame, so a truncated stream is never told FIN |
| WholeRuns.SendIsWhole | src/chute/mux.py:257-293 | from the call on, whatever else happens, `send` has put out a beginning of its data, every byte once, and holds exactly the rest; it returns with everything out unless the stream or the link is gone |
| WholeRuns.RunSaid | src/chute/mux.py:295-300 | while the link is up, a `send_eof` and a `goaway` that were made have been said |
| WholeRuns.RunPatient | src/chute/mux.py:695-703 | no frame is read after 65,536 have been ignored, and the link is then broken |
| WholeRuns.CreditByHalves | src/chute/mux.py:329-338 | over any run less than half the window is held back on any stream, and every credit frame returns at least half |
| Arrivals.EndsArrive | src/chute/mux.py:769-826 | in every run of the two ends, a delivered EOF has ended the receiver's direction and a delivered RESET has closed its stream; an end that was made is said, and ends the other side once all is delivered |
| Arrivals.GoawayArrives | src/chute/mux.py:829-844 | each end counts the other as going away exactly when its GOAWAY has been delivered; then both drain |
| MuxClasses.Stream.SendPass | src/chute/mux.py:268-293 | one pass of the loop of `send`, on the object: new stream value and exactly the DATA frame handed over |
| MuxClasses.Stream.Stall | src/chute/mux.py:274-293 | a send gives up, for want of credit or because its write has stalled |
| MuxClasses.Stream.StartSend | src/chute/mux.py:257-267 | entering `send` |
| MuxClasses.Stream.SendEof | src/chute/mux.py:295-300 | EOF is sent once, and never on a closed stream |
| MuxClasses.Stream.Grant | src/chute/mux.py:302-310 | credit saturates and wakes the sender |
| MuxClasses.Stream.Read | src/chute/mux.py:313-327 | takes the head of the queue and moves the connection and account counters with it, unless closed |
| MuxClasses.Stream.Ack | src/chute/mux.py:329-338 | credit is returned in one frame once half a window has gathered |
| MuxClasses.Stream.EndRecv | src/chute/mux.py:389-396 | write-once terminal |
| MuxClasses.Stream.Feed | src/chute/mux.py:340-382 | queue, drop or reset, with the counters moved by as much as the stream's own |
| MuxClasses.Stream.FeedEof | src/chute/mux.py:384-387 | a clean terminal |
| MuxClasses.Stream.CloseLocal | src/chute/mux.py:425-442 | the teardown body, idempotent |
| MuxClasses.Stream.Reset | src/chute/mux.py:406-418 | tear down and send one RESET |
| MuxClasses.Mux.constructor | src/chute/mux.py:453-505 | derived limits from the negotiated window or the defaults |
| MuxClasses.Mux.Send | src/chute/mux.py:600-617 | the WebSocket takes the frame, or the send raises at once; a send that stalls after its frame was taken gives up in a later step |
| MuxClasses.Mux.Remove | src/chute/mux.py:629-632 | deregister, and wake drains when empty |
| MuxClasses.Mux.SendReset | src/chute/mux.py:639-653 | one queued RESET per id, dropped at the limit |
| MuxClasses.Mux.IgnoreFrame | src/chute/mux.py:695-703 | the ignored-frame limit breaks the connection |
| MuxClasses.Mux.Open | src/chute/mux.py:507-535 | refusals change nothing; a failed OPEN closes the new stream; ids are spent in order |
| MuxClasses.Mux.Goaway | src/chute/mux.py:542-548 | announce and stop opening |
| MuxClasses.Mux.DrainPass | src/chute/mux.py:550-566 | one pass of the loop of `drain` |
| MuxClasses.Mux.OnOpen | src/chute/mux.py:734-768 | every branch of an OPEN frame |
| MuxClasses.Mux.OnEof | src/chute/mux.py:777-788 | every branch of an EOF frame for a live stream |
| MuxClasses.Mux.OnWindowUpdate | src/chute/mux.py:790-817 | every branch of a credit frame for a live stream |
| MuxClasses.Mux.OnGoaway | src/chute/mux.py:829-844 | every branch of a GOAWAY frame |
| MuxClasses.Mux.Receive | src/chute/mux.py:723-846 | one message through the loop of `run`, on the objects, is the step of the value model |
| MuxClasses.Mux.Finish | src/chute/mux.py:847-858 | the clean-up loop aborts every registered stream in some order |
| MuxClasses.Mux.PerformEnd | src/chute/mux.py:847-858 | the end of `run` on the objects is the step of the value model, whatever order the dictionary gives |
| MuxClasses.Mux.Perform | src/chute/mux.py:257-858 | any enabled step on the objects is the same step of the value model, so every theorem above holds of the objects |
| MuxClasses.Mux.PerformAll | src/chute/mux.py:257-858 | any interleaving of steps, the end of `run` and the reads after it included, ends where the value model does, the whole invariant kept |
| RelayInvariant.StepKeeps | src/chute/server.py:863-3006 | after any step: holders of a label are serving or pending under one account, distinct labels in use are within `max_agents`, account counts equal the sums over all the account's tunnels with no zero entries |
| RelayInvariant.RunKeeps | src/chute/server.py:863-3006 | the same over whole runs |
| RelayInvariant.SameHands | src/chute/server.py:2333-2349 | the branch of `_install_registration` for a label that changes account is dead |
| RelayInvariant.ClaimKeeps | src/chute/server.py:1792-1860 | admission keeps the invariant |
| RelayInvariant.InstallKeeps | src/chute/server.py:1962-1977 | installing keeps the invariant |
| RelayInvariant.LeaveKeeps | src/chute/server.py:2898-2905 | the saturating visitor release never loses or invents a slot |
| RelayInvariant.ReleaseBytesKeeps | src/chute/server.py:2948-2956 | the saturating buffer release never loses or invents a byte |
| RelayHistory.StepEvolves | src/chute/server.py:1773-2254 | a registration's label, account, credential and lease id are constant; its lease generation never decreases |
| RelayHistory.RunEvolves | src/chute/server.py:1773-2254 | the same over whole runs |
| RelayHistory.StepKeepsOwner | src/chute/server.py:2432-2453 | in one step a held label keeps its account and a pending slot its holder |
| RelayHistory.RunKeepsOwner | src/chute/server.py:2432-2453 | a label never passes to another account before it is released |
| RelayHistory.RunKeepsQuota | src/chute/server.py:2432-2453 | an account admitted with at most m tunnels never owns more than m labels |
| RelayHistory.EntriesWithinLimit | src/chute/server.py:2455-2460 | distinct labels are at most `max_agents`; entries exceed it by at most the labels being reclaimed |
| RelayHistory.ClaimEntriesIff | src/chute/server.py:2455-2460 | active plus pending entries stay within `max_agents` after a claim exactly when it does not reclaim a label while they have reached it |
| RelayHistory.StepEntriesIff | src/chute/server.py:2455-2460 | the same for every step: no other one raises the count |
| RelayHistory.RunEntriesIff | src/chute/server.py:2455-2460 | the same over whole runs |
| RelayHistory.StaleHarmless | src/chute/server.py:2025-2036 | disconnect, expiry or a late renewal of a connection that lost its label changes only its own record |
| RelayHistory.RunStale | src/chute/server.py:2025-2369 | and that stays so however long after: once stale, always stale and harmless |
| RelayAdmission.ClaimIff | src/chute/server.py:1792-1860 | a claim is accepted exactly when there is a label it is about for which all eight checks pass; the new registration carries the admission's account, credential, lease, end and generation, an allowed label alone if there is one, and the budget in force |
| RelayAdmission.RefusalIff | src/chute/server.py:2432-2460 | a claim is turned away with the reason of the first check that fails |
| RelayAdmission.WantsIff | src/chute/server.py:2400-2409 | the label is the valid one asked for, the first free one of at most a hundred draws, or the default of a relay without host routing |
| RelayAdmission.NoLabelIff | src/chute/server.py:1792-1799 | and when there is none, why |
| RelayAdmission.NewestServes | src/chute/server.py:1962-1977 | the newest connection becomes the tunnel of its label exactly when its pending slot is still there, and the one before it is out |
| RelayAdmission.RunAdmitted | src/chute/server.py:1822-1850 | over any run every registration was granted to some claim of it: that claim's account, credential and lease for life, and its allowed label if there is one |
| RelayAdmission.RestrictedForLife | src/chute/server.py:2432-2439 | a credential admitted for one label only never holds another, in any run |
| RelayAdmission.CredentialGoverns | src/chute/control.py:288-322 | a claim admitted under a credential of the policy file is for its account, label, number of tunnels, budget and length of lease |
| RelayLeases.StepRemovesIff | src/chute/server.py:2186-2386 | a tunnel goes out of service by exactly these steps: found past its lease, refused a renewal or renewed too late, disconnected, superseded or revoked |
| RelayLeases.RunRemovesIff | src/chute/server.py:2186-2386 | over whole runs between renewals |
| RelayLeases.StepEnds | src/chute/server.py:2186-2205 | only the answer to a renewal moves the end of a lease |
| RelayLeases.RenewalProlongs | src/chute/server.py:2186-2227 | a valid answer replaces end and generation and nothing else; until the next one the lease takes the tunnel out of service at the new end and not before |
| RelayLeases.OtherAnswers | src/chute/server.py:2186-2197 | an invalid answer changes nothing, none revokes and is counted |
| RelayLeases.ExpiryCounts | src/chute/server.py:2351-2369 | a tunnel found past its lease is counted as expired and closed to visitors |
| RelayTidy.EntriesExceedLimit | src/chute/server.py:2455-2460 | a run on which active plus pending entries exceed `max_agents` |
| RelayBudgets.RevokeEachGone | src/chute/server.py:2256-2292 | revoking a list of leases removes exactly the registrations under them, each counted once |
| RelayBudgets.UpdateApplied | src/chute/server.py:863-937 | an applied update raises the version, leaves exactly the registrations of unnamed leases, counts each revoked one once and leaves its budgets in charge of every account with work |
| RelayBudgets.StepSticks | src/chute/server.py:939-954 | while an account has work only an update naming it changes its override |
| RelayBudgets.LastPushDecides | src/chute/server.py:929-954 | with continuous work, the last budget pushed decides for every tunnel of the account |
| RelayTidy.AbandonTidyIff | src/chute/server.py:2076-2079 | "budgets and schedules are kept only for accounts with work" survives a pending drop exactly when the account is not remembered or has other work |
| RelayStranded.RevokeTidyIff | src/chute/server.py:2256-2292 | a revocation leaves a budget or schedule behind for an account exactly when it takes the account's last work and a pending slot is among it |
| RelayStranded.UpdateTidyIff | src/chute/server.py:863-937 | the same for a whole policy update, in the order of its leases, and what its budgets then forget |
| RelayStranded.StepTidyIff | src/chute/server.py:2076-2079 | for every step: "budgets and schedules are kept only for accounts with local work" survives it exactly when the step strands no account, read on the state before |
| RelayStranded.RunTidyIff | src/chute/server.py:2076-2079 | the same over whole runs |
| RelayTidy.BudgetOutlivesPending | src/chute/server.py:2076-2079 | a run on which a pushed budget outlives all the account's work |
| RelayTidy.ReservationIff | src/chute/server.py:2934-2946 | a reservation is granted exactly when the total over all the tunnels of the account stays within the limit in force, and then counts in full |
| RelayTidy.SlotReturned | src/chute/server.py:2898-2905 | a visitor that leaves takes exactly one from the count of its account |
| RelayTidy.BytesReturned | src/chute/server.py:2948-2956 | bytes released are taken from the count of the account, all of them |
| RelayTidy.VisitorIff | src/chute/server.py:2747-2761 | a visitor is let in exactly when its label has a tunnel that is neither draining nor past its lease and the account has a slot left; it then takes that slot |
| RelayTidy.NothingLeftOver | src/chute/server.py:2898-2956 | an account holding nothing has no entry |
| RelayIndex.IndexAdd | src/chute/server.py:2050-2058 | indexing a label keeps the index the inverse image |
| RelayIndex.IndexRemove | src/chute/server.py:2060-2074 | unindexing keeps it, with no empty sets |
| RelayIndex.IndexSwap | src/chute/server.py:2333-2349 | an account reclaiming its label keeps it |
| RelayIndex.RetireOneMore | src/chute/server.py:2273-2282 | retiring tunnels one by one, tidying each time, is retiring them at once |
| RelayIndex.CancelOneMore | src/chute/server.py:2283-2291 | the same for pending slots |
| RelayClass.Relay.constructor | src/chute/server.py:481-534 | an empty registry |
| RelayClass.Relay.AccountHasLocalWork | src/chute/server.py:939-948 | the index-and-loop answer is the scan's |
| RelayClass.Relay.DeregisterIfCurrent | src/chute/server.py:2025-2036 | deregister only the current connection, keep both indexes exact, tidy the account |
| RelayClass.Relay.RetireRegistration | src/chute/server.py:2351-2369 | retire only the current registration |
| RelayClass.Relay.DropPendingIfCurrent | src/chute/server.py:2076-2079 | drop only the current pending slot |
| RelayClass.Relay.RetirePendingRegistration | src/chute/server.py:2371-2386 | and count it |
| RelayClass.Relay.RegistrationsForLease | src/chute/server.py:2304-2331 | lists exactly the registrations of the lease; nothing in an index is ever stale |
| RelayClass.Relay.RevokeLeaseId | src/chute/server.py:2256-2292 | the two loops revoke exactly the lease's registrations, return their number, and refuse an unknown action |
| RelayClass.Relay.AuthorizeClaim | src/chute/server.py:2432-2453 | decides as the scan does, reason by reason |
| RelayClass.Relay.AssignLabel | src/chute/server.py:2400-2409 | at most 100 draws for a free label |
| RelayClass.Relay.ClaimLabel | src/chute/server.py:1792-1860 | the first locked section of `_serve_agent`: the new registration, or the reason it was turned away |
| RelayClass.Relay.InstallRegistration | src/chute/server.py:2333-2349 | newest wins, both indexes exact |
| RelayClass.Relay.InstallPending | src/chute/server.py:1962-1977 | the last locked section of `_serve_agent`: whether the slot was still there, and which registration was superseded |
| RelayClass.Relay.AbandonPending | src/chute/server.py:1885-1893 | a failed event sink or ready message gives the slot up |
| RelayClass.Relay.DisconnectAgent | src/chute/server.py:1998-2023 | the end of `_serve_agent` |
| RelayClass.Relay.RenewLease | src/chute/server.py:2186-2227 | a renewal answer is applied, rejected or retires, only for the current registration |
| RelayClass.Relay.ValidPolicyUpdate | src/chute/server.py:882-927 | the loops decide the validity predicate: newer version, sizes, non-empty distinct leases across both lists, known actions, distinct accounts, valid budgets |
| RelayClass.Relay.SetAccountBudget | src/chute/server.py:929-937 | sets the override and every active registration's budget, or forgets the override |
| RelayClass.Relay.ApplyPolicyUpdate | src/chute/server.py:863-880 | the whole update as specified, in the program's loops: rejected, every field and index is as before but the reject counter; applied, the version is raised and exactly the registrations of unnamed leases are left |
| RelayClass.Relay.AdmitVisitor | src/chute/server.py:2747-2761 | selects, expires or refuses, and says which tunnel took the visitor; the account's slot is taken with it |
| RelayClass.Relay.ReleaseVisitor | src/chute/server.py:2898-2905 | gives the slot back |
| RelayClass.Relay.TryReserveBuffer | src/chute/server.py:2934-2946 | reserves iff the account's total fits |
| RelayClass.Relay.ReleaseBuffer | src/chute/server.py:2948-2956 | releases, and tidies at zero |
| RelayClass.Relay.SweepIdleBandwidth | src/chute/server.py:2986-2988 | forgets every idle account |
| RelayClass.Relay.ThrottleBytes | src/chute/server.py:2958-2984 | the locked part of the throttle: unlimited, refused, or when the chunk may start |
| RelayClass.Relay.Perform | src/chute/server.py:863-3006 | every step with indexes is the step of the index-free specification, and keeps every index exact |
| RelayClass.Relay.PerformAll | src/chute/server.py:863-3006 | the same for whole runs |
| Bandwidth.ReleaseIsMaxPlus | src/chute/server.py:2976-2984 | the release time is the maximum over earlier arrivals of arrival plus the time of all bytes since: no chunk leaves earlier or waits longer |
| Bandwidth.RateBound | src/chute/server.py:2976-2984 | what leaves within any span is at most limit times span plus one chunk |
| Bandwidth.InOrder | src/chute/server.py:2976-2984 | chunks leave in the order taken |
| Bandwidth.ChunkLeavesAt | src/chute/server.py:2958-2984 | from the account's first chunk on and whatever the relay does meanwhile, each chunk of any of its tunnels leaves at the max-plus time |
| Bandwidth.PacedIff | src/chute/server.py:2958-2994 | over a whole run, schedules dropped and remade included, the account's chunks leave as one schedule would let them exactly when none comes to a dropped schedule before that would have been free |
| Bandwidth.RunRateBound | src/chute/server.py:2958-2994 | and then the rate bound holds over the whole run |
| Bandwidth.GapPassesBound | src/chute/server.py:2990-2994 | a run on which an agent goes and comes back and the bound is passed |
| Bandwidth.RunSchedule | src/chute/server.py:2958-2994 | over any run that keeps one schedule object, the account's schedule is that of its own chunks, from all its tunnels together |
| Limiter.FreshLater | src/chute/server.py:2529-2538 | what has been pruned could not have counted later |
| Limiter.WindowBound | src/chute/server.py:2505-2527 | any 60-second window holds at most the greatest limit of recorded reconnects |
| Limiter.WindowLimiter.ReconnectOk | src/chute/server.py:2505-2527 | pruned and swept lists give the answer of the complete history; below the cap on keys they keep doing so |
| Limiter.WindowLimiter.ReconnectAll | src/chute/server.py:2505-2547 | any sequence of reconnects of at most 65,536 accounts: each answer is that of the complete history, and no 60-second window holds more than the greatest limit |
| Limiter.WindowLimiter.Evict | src/chute/server.py:2497-2499 | the cap throws out exactly the oldest keys |
| Limiter.WindowLimiter.FreshTimes | src/chute/server.py:2529-2538 | pruning one key |
| Limiter.WindowLimiter.Sweep | src/chute/server.py:2540-2547 | sweeping keeps every answer |
| Limiter.WindowLimiter.AuthRateOk | src/chute/server.py:2462-2477 | the failed-handshake answer is that of the complete history |
| Limiter.WindowLimiter.RecordAuthFail | src/chute/server.py:2479-2499 | records and sweeps; what goes is stale, or the oldest key of a full log |
| PolicyFile.CollectIff | src/chute/control.py:449-518 | credentials are accepted iff each parses, ids and hashes are unique and no label is promised to two accounts; they come out in order |
| PolicyFile.CredentialFailsIff | src/chute/control.py:483-487 | exactly a null `max_tunnels` behind a good id, hash and account fails the assertion |
| PolicyFile.CollectFailsIff | src/chute/control.py:460-518 | a list of credentials fails it exactly when its first problem is such a credential |
| PolicyFile.FileFailsIff | src/chute/control.py:410-446 | which contents get past the loader's guard: text nested past the recursion limit, or an object of known keys and schema with 1 to 4096 credentials whose first problem is such a credential |
| PolicyFile.UpdateNeverFails | src/chute/control.py:521-552 | the policy delta has no assertion to fail |
| PolicyFile.ParseCredentials | src/chute/control.py:449-518 | the loop with its sets and dictionary decides that |
| PolicyFile.FindDuplicates | src/chute/control.py:619-626 | the loop computes the specified list of repeats |
| PolicyFile.DuplicatesIff | src/chute/control.py:619-626 | a value is reported iff it occurs at two places, and once |
| PolicyFile.ParsedUpdateIsValid | src/chute/control.py:521-616 | every update the file parser yields passes the relay's validator at any older version |
| PolicyFile.WrittenUpdateReadsBack | src/chute/control.py:521-644 | every valid update with something in it can be written in the file and reads back the same |
| PolicyMeaning.CredentialIff | src/chute/control.py:460-518 | a credential is accepted, and yields these fields, exactly when each field says so, defaults included |
| PolicyMeaning.CredentialsIff | src/chute/control.py:449-518 | a list of 1 to 4096 credentials likewise, with ids and hashes unique and no label for two accounts |
| PolicyMeaning.UpdateIff | src/chute/control.py:521-616 | the policy delta is accepted, and yields this update or none, exactly when the file says so |
| PolicyMeaning.PolicyIff | src/chute/control.py:410-430 | a file is accepted exactly when it says a policy, and yields it |
| PolicyMeaning.CredentialBack | src/chute/control.py:460-518 | any proper credential written down is read back as it was |
| PolicyMeaning.WrittenPolicyReadsBack | src/chute/control.py:410-430 | any policy of proper, compatible credentials with a valid update or none is read back as it was |
| PolicyMeaning.ParsedIsHoldable | src/chute/control.py:410-430 | and the parser yields no other policy |
| ControlPlane.StaticPolicyControlPlane.LoadPolicy | src/chute/control.py:374-407 | over any sequence of reads, failures and bad edits, the two-fingerprint cache returns the parse of the most recent good snapshot, except exactly when the reading itself breaks or finds contents that escape the guard |
| ControlPlane.StaticPolicyControlPlane.AdmitTunnel | src/chute/control.py:288-322 | admits under the one credential with the token's hash in the last good policy, records finite leases, and fails when no date can name the end of the lease |
| ControlPlane.StaticPolicyControlPlane.RenewLease | src/chute/control.py:324-358 | renews exactly while the last good policy still has the credential with a finite lease, and what it returns passes the relay's check for any registration that asks until it runs out |
| ControlPlane.StaticPolicyControlPlane.PruneInactiveLeases | src/chute/control.py:368-372 | keeps exactly the active leases |
| ControlPlane.StaticPolicyControlPlane.PollPolicyUpdates | src/chute/control.py:360-366 | returns the update of the last good policy exactly when it is newer, and the relay finds it valid; forgets inactive leases first |
| ControlPlane.RenewedWhileListed | src/chute/control.py:324-349 | a lease goes on exactly while the policy has a credential of the same id, account and token with a finite lease |
| ControlPlane.NullTunnelsEscapes | src/chute/control.py:374-407 | a bad edit that escapes the last-good guard |
| RequestHead.CleanIffPaired | src/chute/server.py:3073-3080 | delete-CRLF-then-look passes iff every CR has its LF and every LF its CR |
| RequestHead.SplitLinesJoins | src/chute/server.py:3081-3081 | splitting loses nothing and leaves no CR or LF in a line |
| RequestHead.JoinSplitLines | src/chute/server.py:3073-3081 | and finds any lines that were joined |
| RequestHead.RequestLineIff | src/chute/server.py:3083-3105 | the request line is accepted iff it is token SP target SP version, target in origin or asterisk form |
| RequestHead.FieldIff | src/chute/server.py:3107-3121 | a field line is accepted iff it is token ":" value |
| RequestHead.ParseRequestHead | src/chute/server.py:3067-3129 | the loop computes the specified result, error by error |
| RequestHead.HostIff | src/chute/server.py:3145-3202 | a Host value is accepted iff it is OWS uri-host [":" port] OWS, and normalized to the uri-host in lower case |
| RequestHead.HostIdempotent | src/chute/server.py:3145-3202 | normalizing twice changes nothing |
| RequestHead.HeadIff | src/chute/server.py:3067-3129 | the parser accepts exactly the stated grammar, with one valid Host or none where allowed, and returns that Host |
| Routing.LabelIff | src/chute/server.py:2996-3006 | a host routes to a label iff it is the label under the base domain, letter case and final dots apart |
| Routing.ValueRoutesBack | src/chute/server.py:2418-2430 | the advertised host in any case, with any legal port, final dot or white space, is valid and routes back |
| Routing.HeadRoutesBack | src/chute/server.py:2747-2754 | and so does any otherwise well-formed head carrying it |
| Routing.NeverShared | src/chute/server.py:2996-3006 | distinct labels never share a host |
| Routing.RoutedOnlyToOwn | src/chute/server.py:2996-3006 | a request that reaches a label bears that label's host |
| Tunnels.StepReserves | src/chute/mux.py:367-382 | a multiplexer reserves only for data it asked about and was allowed |
| Tunnels.StepKeeps | src/chute/server.py:1819-1833 | every step of the relay or of any multiplexer keeps both invariants and what is booked for a registration equal to what its multiplexer holds |
| Tunnels.RunKeeps | src/chute/server.py:1819-1833 | the same over whole runs of the relay and all its multiplexers |
| Tunnels.AccountHoldsItsMuxes | src/chute/server.py:2934-2956 | in every run from an empty relay, the account's buffered bytes are the sum over all its multiplexers, superseded and detached ones included, with no entry left at zero |
| Limiter.AllowedIff | src/chute/server.py:2505-2527 | an attempt is let in exactly when it is under no limit or fewer than the limit lie in the last 60 seconds, and recorded exactly when let in under one |

## Left out

- Mux.Receive: does not model the log lines and statistics of `run`, which no decision reads.
- Mux.Open: the responder never calls `open()`; the relay's agents do not either.
- Stream.SendPass: a WebSocket send is accepted or fails at once; the suspension inside it is the step boundary after it.
- Relay.Perform: registrations are numbered records in one sequence instead of separate heap objects; aliasing is by number.
- Relay.ThrottleBytes: the sleep after the lock is not modelled; `Bandwidth` gives the time slept until.
- Relay.RetireRegistration: the scheduled drain and close of the old connection are separate events that may come at any time.
- Relay.ClaimLabel: the events emitted, the replies to the agent and the URL text are left out; whether the scheme can be served is an input.
- WindowLimiter.ReconnectOk: once 65,536 keys are held a new one evicts the oldest, whose budget is forgotten; from then on the answers are not those of the complete history.
- StaticPolicyControlPlane.AdmitTunnel: hashing of tokens and drawing of lease ids are inputs; times are whole seconds.
- HostIff: IPv6 validity is a parameter, assumed blind to case only in HostIdempotent; a Host is bytes, so only ASCII letters have a case.
- Relay.AuthorizeClaim: of the letters outside ASCII only the Kelvin sign is folded, the one that becomes a character of a label.
- The lease renewal delay (`src/chute/server.py:2111-2146`): it halves the remaining time in the last second, so over exact reals there is no bound on the number of renewals; no timing is claimed.
- Both pumps of `_relay.py` appear as the steps read, ack, send and send_eof of the streams they serve, with the FIN or RST they choose; sockets are not part of this model.
- TLS, certificates, sockets, WebSocket internals, signals, systemd notification and the CLI: foreign I/O.
- The per-source visitor slots and the two semaphores: counters with easy members.
- Cancellation of `_serve_agent` at shutdown.
- HTTP after the request head.
- The agent's reconnect backoff, the event queue, metrics and log files.
