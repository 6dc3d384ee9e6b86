# Message engine and key exchange of end2end-smkex, verified in Dafny

The project models three parts of end2end-smkex and proves properties of whole runs.

**The message engine** (`Pool`, `Transport`, `EngineSpec`, `Engine`, `Sorting`, `World`, `Locks` and the modules of
theorems). `MpAutoResendEngine` keeps one queue per recipient, a weight per queue, a dirty flag for unreachable
recipients and a priority list that is bubble-sorted by weight. One message at a time is with `MpMsgTransport`, which
sends it a bounded number of times and calls back. The engine stands here twice:

* `Engine.AutoResendEngine`, `Pool.MsgPool`, `Transport.MsgTransport` are classes with the fields of the source. Each
  method is proved to do in place what a function on values says (`EngineSpec`, `Pool`, `Transport`).
* `World` is a step relation in which every region under one lock is one atomic step built from those same functions.
  In sendMessage, releasing the pool lock and clearing `started_` are two steps (`Clearing` lies between them).
  setAutoResendEnabled reads the option before it takes the lock, which is a step of its own. Callers are counted between
  their pool update and their start. The histories of added, confirmed and handed-over messages are part of the state.

On `World` stand: one message outstanding, no lost wakeup (`Options` for two safe ways of using the option), conservation
and order (`Conservation`, `DistinctUids`, `Lossless`), quarantine of unreachable recipients, termination and send bounds
(`Quiescence`), fairness (`Fairness`), what presence, resends and syncs do (`Presence`, `Resends`, `SyncOrder`), and what removal breaks (`Removal`). `Calls`
proves that each method of the class, called while no other call is in progress, is a run of `World`. `Locks` adds the lock over the database
connectors, which a sync holds while it takes the pool lock and which marking regions take while they hold the pool lock:
every run of `Locks` is a run of `World`, and it says exactly when the locks deadlock. `Witness` holds concrete runs for
properties that fail.

**Records and framing** (`Codec`, `Payload`, `SipUri`, `Delivery`, `Wire`). The record format, the type byte before it, and the
`sip:user@host:port` form of section 19.1.1 of RFC 3261. `Delivery` puts records over the engine, in the manual mode the
engine starts in or any other: the packets confirmed are the records, in order, and in the end all of them. `Wire` says what
stands on the wire: a packet that arrived but was not acknowledged is sent again, on the spot.

**The SMKEX exchange** (`Smkex`, `Handshake`, `Agreement`). `Smkex.Receive` says what one record does to a session;
`Smkex.Exchange` does it in place. `Handshake` delivers records between two honest peers in every order that two FIFO
channels allow, each record once, and says which record may not come twice. `Alerts` has the states of a session one by one,
and what follows a rejected handshake. `Agreement` gives one channel away and lets anything arrive on it.

## Where the code departs from its documentation

The model follows the code. Two variants exist only for H: `AsWritten` is the code, `Intended` the contract in
smkex/include/Smkex.h:210-222.

* verifyH returns strncmp itself (smkex/src/Smkex.cpp:304), so it is true when the values differ, as far as the first zero
  byte: `Smkex.WrittenCheckIsStrncmp`, `Smkex.WrittenCheckIsInverted`.
* H covers `local_nonce2` while `local_nonce` is sent (smkex/src/Smkex.cpp:275-288), the initiator sends its H before it
  stores the responder's nonce (smkex/src/Smkex.cpp:454-455), and calculateH takes lengths with strlen on binary data
  (smkex/src/Smkex.cpp:213-216). `Handshake.WrittenAccepts` says exactly when the honest handshake succeeds in spite of this.
* As a consequence the two-channel promise of the project holds of the code as written only if the channel of the keys is the
  honest one (`Agreement.WrittenAgreement`); the documented check keeps it either way.
* syncWithDBConnectors and a report of a failed transfer can wait for each other's lock for good
  (auto_resend/src/MpAutoResendEngine.cpp:61-68 and :180-209): `Locks.NeverStuckExactly`.
* Switching the option off can leave a deliverable pool with nobody to start the engine (`Witness.LoneSwitchOffLosesWakeup`,
  `Witness.OptionRaceLosesWakeup`); `World.NoLostWakeup` has the exact condition.
* addSessionInfo with `force` does not replace an existing session (smkex/src/Smkex.cpp:31-39), although smkex/include/Smkex.h:95-100 says so.
* removeMessagesForSerial leaves the serial in the priorities, where the next sort looks up a missing pool, and a cancelled
  message is never reported, so `started_` stays true (auto_resend/src/MpAutoResendEngine.cpp:272-282). `Removal` states when each
  matters, region by region.
* `INT_MAX + 1` reaches setWeight as a negative number and becomes 0 (auto_resend/include/MpMsgPool.h:32-34). Dirty pools do wrap this
  way on a resend; clean pools cannot within INT_MAX steps (`Quarantine.CalmRun`). The theorems that need it name the weights.
* All SMKEX messages carry UID 1 (smkex/src/Smkex.cpp:90). In auto mode, and in manual mode without a refusal, this is harmless; after a
  refusal in manual mode it loses a message (`Witness.SharedUidLosesMessage`). `Conservation.ConfirmRemovesHanded` has the exact
  condition for one confirmation, `Lossless.InOrderExactly` and `Lossless.CompleteExactly` for whole runs.
* The transport sends a message again when its acknowledgement is lost (data_msg/src/MpMsgTransport.cpp:45-53), and the responder
  answers a repeated nonce with an alert (smkex/src/Smkex.cpp:431-433): `Handshake.RepeatedRecord`.

## Assumptions

Each SIP send is followed by one completion. Three of the locks are recursive mutexes and `userPoolLock_` is a plain read-write
lock; regions under a lock are atomic. For the documented check H is an ideal
hash on its four values (`SoundHash`); what strncmp needs besides is assumed only where the check as written must accept
(`GoodHash` in `Handshake.WrittenAccepts`, one inequality in `Agreement.WrittenAgreement`); the key derivation is any function that gives both ends the same key for the two key pairs;
whether bytes are a curve point is any predicate. Nonces, clocks and the state of the SIP stack are parameters. On the
honest channel of `Agreement` only records the peer really sent arrive; keys and alerts belong to channel 1 and nonces and H to
channel 2, which is the split the design describes (the code passes channel 1 for the initiator's nonce, smkex/src/Smkex.cpp:173, and sendKeyOrNonce ignores the argument).

## Model

| member | source | states |
|---|---|---|
| `Engine.AutoResendEngine.AddMessageInternal` | auto_resend/src/MpAutoResendEngine.cpp:31-49 | the message goes to the end of its recipient's pool, which is created when missing, and the pool is cleaned; nothing else changes |
| `Engine.AutoResendEngine.AddMessage` | auto_resend/src/MpAutoResendEngine.cpp:51-57 | adds, then starts: with the SIP stack up and the engine stopped, the state is that of one scan of the pools after the addition |
| `Engine.AutoResendEngine.SyncWithDBConnectors` | auto_resend/src/MpAutoResendEngine.cpp:59-72 | the messages of every database connector are added in order and the engine is not started |
| `Engine.AutoResendEngine.SortPass` | auto_resend/src/MpAutoResendEngine.cpp:92-99 | a pass that swaps strictly lowers the number of inversions; one that does not leaves the weights nondecreasing; equal weights keep their order |
| `Engine.AutoResendEngine.SortMessages` | auto_resend/src/MpAutoResendEngine.cpp:74-101 | the bubble sort terminates and leaves exactly the stable sort of the priorities by weight |
| `Engine.AutoResendEngine.HandOver` | auto_resend/src/MpAutoResendEngine.cpp:109-134 | the in-place loop over the priorities hands over what the scan on values selects, marks the dirty pools it passes, and puts one packet on the wire |
| `Engine.AutoResendEngine.SendMessage` | auto_resend/src/MpAutoResendEngine.cpp:103-139 | the pools, the priorities, the transport and `started` after sendMessage are those of the scan; `started` falls exactly when nothing is found |
| `Engine.AutoResendEngine.MarkUserPoolProcessed` | auto_resend/src/MpAutoResendEngine.cpp:141-163 | every message is marked and the weight becomes INT_MAX, except for an empty pool or one already at INT_MAX |
| `Engine.AutoResendEngine.MarkUserPoolAsClean` | auto_resend/src/MpAutoResendEngine.cpp:224-239 | weight 0, clean, and in auto mode every message unprocessed |
| `Engine.AutoResendEngine.UpdatePool` | auto_resend/src/MpAutoResendEngine.cpp:179-212 | the pools after a report: message removed and weight raised, or pool erased with its priority, or pool dirty and processed |
| `Engine.AutoResendEngine.MessageStatus` | auto_resend/src/MpAutoResendEngine.cpp:165-218 | the report updates the pools and then scans the updated pools |
| `Engine.AutoResendEngine.OnSendMsgDone` | data_msg/src/MpMsgTransport.cpp:37-62 | a completion is ignored, causes one more packet, or reaches the engine, which scans; pools, transport, wire and `started` are stated for each |
| `Engine.AutoResendEngine.StartEngine` | auto_resend/src/MpAutoResendEngine.cpp:284-296 | scans exactly when the SIP stack is up and the engine is not started; otherwise nothing changes |
| `Engine.AutoResendEngine.BuddyState` | auto_resend/src/MpAutoResendEngine.cpp:241-257 | a buddy with a pool that comes online has its pool cleaned and the engine started; any other state change does nothing |
| `Engine.AutoResendEngine.SetAutoResendEnabled` | auto_resend/src/MpAutoResendEngine.cpp:298-308 | the option takes the value; the engine is started exactly on the change from off to on |
| `Engine.AutoResendEngine.RaiseMessage` | auto_resend/src/MpAutoResendEngine.cpp:311-332 | false and no change when the message is not queued; else it is unprocessed, its pool clean with weight 0, and every other weight one higher as setWeight stores it |
| `Engine.AutoResendEngine.ResendMessage` | auto_resend/src/MpAutoResendEngine.cpp:310-337 | the same, followed by a start |
| `Engine.AutoResendEngine.RemoveMessagesForSerial` | auto_resend/src/MpAutoResendEngine.cpp:272-282 | the pool goes and a message in flight to the serial is cancelled; the priorities and `started` stay as they are |
| `Calls.AddIsRun` | auto_resend/src/MpAutoResendEngine.cpp:51-57 | addMessage, with no other call in progress, is a run of the step relation with the same pools, transport, `started` and packets |
| `Calls.OnlineIsRun` | auto_resend/src/MpAutoResendEngine.cpp:241-257 | so is the presence event of an online buddy |
| `Calls.RaiseIsRun` | auto_resend/src/MpAutoResendEngine.cpp:310-337 | so is a resend that finds its message |
| `Calls.SwitchIsRun` | auto_resend/src/MpAutoResendEngine.cpp:298-308 | so is a call that sets the option |
| `Calls.CompletionIsRun` | data_msg/src/MpMsgTransport.cpp:37-62 | so is a completion, with the report and the scan that follow |
| `SyncOrder.SyncIsRun` | auto_resend/src/MpAutoResendEngine.cpp:59-72 | a sync is a run of single additions without a start, one for each stored message in order |
| `SyncOrder.SyncAppends` | auto_resend/src/MpAutoResendEngine.cpp:59-72 | a sync appends to the queue of each recipient exactly the messages stored for it, by connector and then in their order, and nothing else |
| `SyncOrder.SyncCounts` | auto_resend/src/MpAutoResendEngine.cpp:59-72 | and the number of queued messages grows by what the connectors hold |
| `Presence.ComesOnline` | auto_resend/src/MpAutoResendEngine.cpp:241-257 | a buddy with a pool that comes online has it clean with weight 0, its messages in place, in auto mode unprocessed, and nothing else changes |
| `Presence.AddReactivates` | auto_resend/src/MpAutoResendEngine.cpp:31-49 | an addition does the same with the message at the end; a new recipient comes last in the priorities |
| `Presence.ReactivatedDelivers` | auto_resend/src/MpAutoResendEngine.cpp:120-128 | such a pool is deliverable if and only if its head, in auto mode, or its first invitation or unprocessed message, in manual mode, has retries |
| `Presence.OnlineEmpties` | auto_resend/src/MpAutoResendEngine.cpp:248-253 | a recipient that comes online, whatever was refused before, has its queue emptied by the time the engine rests, if none of its messages is refused again |
| `Resends.FoundExactly` | auto_resend/src/MpAutoResendEngine.cpp:310-321 | resendMessage finds its message if and only if one with the UID is queued |
| `Resends.RaiseMarks` | auto_resend/src/MpAutoResendEngine.cpp:322-331 | the first message with the UID is unprocessed and the queue else unchanged, its pool clean with weight 0, every other weight one higher, where INT_MAX goes to 0 |
| `Resends.RaiseOffers` | auto_resend/src/MpAutoResendEngine.cpp:120-128 | then auto mode offers the head, and manual mode that message if and only if everything before it is plain and processed |
| `Sorting.SwapInversions` | auto_resend/src/MpAutoResendEngine.cpp:92-98 | swapping an adjacent pair that is out of order removes exactly one inversion |
| `Sorting.StableSortFacts` | auto_resend/src/MpAutoResendEngine.cpp:85-101 | the sorted priorities are a permutation, nondecreasing in weight, in which equal weights keep their order |
| `Sorting.SortUnique` | auto_resend/src/MpAutoResendEngine.cpp:85-101 | those facts leave only one possible result |
| `Sorting.SortedOrder` | auto_resend/src/MpAutoResendEngine.cpp:74-101 | whoever stands first after the sort is lighter, or equally heavy and stood first before it |
| `EngineSpec.AddRepInv` | auto_resend/src/MpAutoResendEngine.cpp:31-49 | adding keeps: priorities without duplicates, exactly the pools' serials, no empty pool |
| `EngineSpec.OnlineRepInv` | auto_resend/src/MpAutoResendEngine.cpp:224-257 | presence keeps the representation invariant |
| `EngineSpec.ResendRepInv` | auto_resend/src/MpAutoResendEngine.cpp:310-332 | resend keeps the representation invariant |
| `EngineSpec.StatusRepInv` | auto_resend/src/MpAutoResendEngine.cpp:179-212 | a report keeps the representation invariant, also when it empties a pool |
| `EngineSpec.ScanKeeps` | auto_resend/src/MpAutoResendEngine.cpp:103-134 | a scan keeps the representation invariant, touches no clean pool and only marks dirty ones |
| `EngineSpec.ScanPicks` | auto_resend/src/MpAutoResendEngine.cpp:103-134 | the message handed over is what the first deliverable pool in order of weight, then age, offers; none is handed over exactly when no pool is deliverable |
| `EngineSpec.ScanSorts` | auto_resend/src/MpAutoResendEngine.cpp:85-107 | after a scan the priorities are stably sorted by the weights they had |
| `Pool.ClampWeight` | auto_resend/include/MpMsgPool.h:32-34 | weights stay within 0 and INT_MAX, and INT_MAX + 1 becomes 0 |
| `Pool.IndexOf` | auto_resend/src/MpMsgPool.cpp:62-73 | the first message with the UID, or -1 exactly when there is none |
| `Pool.OfferIndex` | auto_resend/src/MpMsgPool.cpp:21-39 | auto: the head; manual: the first message that is an invitation of some kind or unprocessed, and everything before it is neither |
| `Pool.MsgPool.SetWeight` | auto_resend/include/MpMsgPool.h:32-34 | stores the clamped weight and changes nothing else |
| `Pool.MsgPool.GetMessage` | auto_resend/src/MpMsgPool.cpp:21-39 | the search loop returns the offered message, or the placeholder with no retries when there is none |
| `Pool.MsgPool.GetIndexForUID` | auto_resend/src/MpMsgPool.cpp:62-73 | the search loop returns the first index |
| `Pool.MsgPool.RmMessage` | auto_resend/src/MpMsgPool.cpp:40-49 | the first message with the UID is erased, and only that one |
| `Pool.MsgPool.MarkMsg` | auto_resend/src/MpMsgPool.cpp:90-102 | the first message with the UID changes its mark, and only that one |
| `Pool.MarkUidIndex` | auto_resend/src/MpMsgPool.cpp:62-102 | marking never changes which message a UID finds |
| `Transport.MsgTransport.SendMessage` | data_msg/src/MpMsgTransport.cpp:15-30 | the message replaces the current one, the counter starts at its retries, and one packet is sent exactly when there are any |
| `Transport.MsgTransport.OnSendMsgDone` | data_msg/src/MpMsgTransport.cpp:37-62 | what one completion does to the message, the counter and the wire, and what it leads to |
| `Transport.MsgTransport.RemoveMessageForSerial` | data_msg/src/MpMsgTransport.cpp:64-71 | only the retry field of a message to that serial is zeroed |
| `Transport.BoundedAttempts` | data_msg/src/MpMsgTransport.cpp:15-62 | for r > 0 retries: between 1 and r sends, one report, Sent exactly when the last send was acknowledged, NotSent only after all r, and completions after the report change nothing |
| `World.CoreStep` | auto_resend/src/MpAutoResendEngine.cpp:31-257 | every step of every interleaving keeps the representation invariant |
| `World.ControlStep` | auto_resend/src/MpAutoResendEngine.cpp:103-139 | every step keeps the relation between `started_`, the two locks, the completion thread and the transport |
| `World.SingleOutstanding` | auto_resend/src/MpAutoResendEngine.cpp:284-296 | in every reachable state at most one message is outstanding, and outside the callback `started_` holds exactly when one is |
| `World.ProgressGoes` | auto_resend/src/MpAutoResendEngine.cpp:165-218 | with the connector lock left aside: whenever something is started, pending or outstanding, an internal step is enabled |
| `Locks.MarksChange` | auto_resend/src/MpAutoResendEngine.cpp:120-133 | a scan takes the connector lock exactly when it changes the pools |
| `Locks.ReportMarks` | auto_resend/src/MpAutoResendEngine.cpp:206-210 | a report does so exactly when it raises the weight of a refused pool |
| `Locks.RefinesWorld` | auto_resend/src/MpAutoResendEngine.cpp:59-72 | every run with the connector lock is a run of the step relation, so all its theorems hold of it |
| `Locks.NeverStuckExactly` | auto_resend/src/MpAutoResendEngine.cpp:59-72 | in every reachable state with work to do some step of it is enabled if and only if no sync with messages left waits for the pool lock against a region about to mark a pool |
| `Locks.DeadlockEntered` | auto_resend/src/MpAutoResendEngine.cpp:152-161 | the exact steps that lead there |
| `Locks.DeadlockLasts` | auto_resend/src/MpAutoResendEngine.cpp:206-210 | and it lasts for good: nothing is sent or handed over any more and no pool changes |
| `Locks.SyncDeadlocks` | auto_resend/src/MpAutoResendEngine.cpp:59-72 | a run that gets there: a sync of one message overlapping a report of a failed transfer |
| `World.AwakeStep` | auto_resend/src/MpAutoResendEngine.cpp:103-139 | each step but a harmful write of the option keeps: a stopped engine with nobody about to start it leaves no deliverable pool but excused ones |
| `World.WriteKeepsAwake` | auto_resend/src/MpAutoResendEngine.cpp:298-308 | a write of the option keeps it if and only if it starts the engine, meets it running, or makes no further pool deliverable |
| `World.NoLostWakeup` | auto_resend/src/MpAutoResendEngine.cpp:284-296 | in any interleaving, from the start and from any reachable state in which none is lost, no wakeup is lost if and only if every write of the option is harmless in that sense |
| `Options.NothingLostByOptions` | auto_resend/src/MpAutoResendEngine.cpp:298-308 | so it is, from such states, when the option is only switched on, and when it is switched at will by one call at a time and every message has retries |
| `World.ExcusedOnlyBy` | auto_resend/src/MpAutoResendEngine.cpp:59-72 | only syncWithDBConnectors, or a start that meets a stopped SIP stack, excuses a pool |
| `Witness.OptionRaceLosesWakeup` | auto_resend/src/MpAutoResendEngine.cpp:298-308 | a run in which two overlapping option calls lose a wakeup |
| `Witness.LoneSwitchOffLosesWakeup` | auto_resend/src/MpAutoResendEngine.cpp:298-308 | a run in which a single switch-off, overlapping nothing, loses a wakeup because the head has no retries |
| `Everywhere.EveryStep` | auto_resend/src/MpAutoResendEngine.cpp:31-257 | what holds of every message added, marks aside, holds of every message queued |
| `Conservation.StatusQueue` | auto_resend/src/MpAutoResendEngine.cpp:184-210 | a report takes exactly one message out of exactly one queue, and only when the status is Sent |
| `Conservation.ConfirmRemovesHanded` | auto_resend/src/MpAutoResendEngine.cpp:184-189 | a confirmation removes the message that was handed over if and only if every message from the first with its UID up to it is that same message |
| `Conservation.HeadStep` | auto_resend/src/MpAutoResendEngine.cpp:103-139 | while only heads are handed over to a recipient, its message in flight stays the head of its queue |
| `Conservation.LedgerStep` | auto_resend/src/MpAutoResendEngine.cpp:31-218 | and each step keeps its ledger: queued and added since the start = confirmed since followed by queued |
| `Conservation.NothingLostInOrder` | auto_resend/src/MpAutoResendEngine.cpp:31-218 | in any mode, for every run in which only heads are handed over to the recipient, whatever the UIDs |
| `Conservation.NothingLostInAutoMode` | auto_resend/src/MpAutoResendEngine.cpp:31-218 | from any reachable state with nothing but its head in flight to the recipient, as long as auto-resend stays on, whatever the UIDs and the refusals |
| `Conservation.NothingLostWithoutRefusals` | auto_resend/src/MpAutoResendEngine.cpp:31-218 | in any mode, switched at will, whatever the UIDs and whatever was refused before: from any reachable state in which nothing unsent is left marked for the recipient, while its messages are added unprocessed and none is refused |
| `Conservation.EmptiedIsUntouched` | auto_resend/src/MpAutoResendEngine.cpp:191-200 | an emptied queue is such a state |
| `Conservation.NothingLostFromStart` | auto_resend/src/MpAutoResendEngine.cpp:31-218 | from the start: added = confirmed followed by queued |
| `Lossless.OrderStep` | auto_resend/src/MpAutoResendEngine.cpp:165-218 | a step keeps the ledger of a recipient if and only if it takes out no message but the head it confirms |
| `Lossless.InOrderExactly` | auto_resend/src/MpAutoResendEngine.cpp:165-218 | from any reachable state, in any mode and whatever the UIDs: nothing is lost, duplicated or reordered in any state of a run if and only if every confirmation finds its message at the head of the queue |
| `Lossless.CompleteExactly` | auto_resend/src/MpAutoResendEngine.cpp:165-218 | and nothing is lost or duplicated, in whatever order, if and only if every confirmation finds a message equal to its own as the first with its UID |
| `DistinctUids.FlightStep` | auto_resend/src/MpAutoResendEngine.cpp:103-218 | in any mode the message in flight is still in its clean queue at every step |
| `DistinctUids.BooksStep` | auto_resend/src/MpAutoResendEngine.cpp:31-218 | in any mode, while the UIDs of a recipient are distinct, each step keeps the queue equal to the messages that entered it without the confirmed ones |
| `DistinctUids.NothingLostWithDistinctUids` | auto_resend/src/MpAutoResendEngine.cpp:31-218 | in every run and mode, from any reachable state, with distinct UIDs queued then and added since: the queue is those messages that are not confirmed since, in order; none is confirmed twice and no other is |
| `Witness.SharedUidLosesMessage` | smkex/src/Smkex.cpp:90-91 | a manual-mode run with the one UID that SMKEX uses: a refused message is dropped unsent and a confirmed one stays queued |
| `Quarantine.RefusedProcessed` | auto_resend/src/MpAutoResendEngine.cpp:206-210 | after a refusal all messages of the pool are processed if and only if the weight was not INT_MAX or every message but the refused one already was |
| `Quarantine.CalmRun` | auto_resend/include/MpMsgPool.h:32-34 | in every run shorter than INT_MAX steps clean weights are at most the number of steps and dirty pools are fully processed |
| `Quarantine.HeldRun` | auto_resend/src/MpAutoResendEngine.cpp:120-133 | no message is handed over to a dirty recipient while nothing is added or raised for it and it does not come online; if its messages were all processed they stay so |
| `Quarantine.RefusalHolds` | auto_resend/src/MpAutoResendEngine.cpp:206-210 | every refusal leaves the pool dirty, and fully processed if and only if its weight was not INT_MAX or nothing else was left to offer |
| `Quarantine.Quarantined` | auto_resend/src/MpAutoResendEngine.cpp:206-210 | after every refusal the recipient is left alone, however long the run goes on, until an add, an online event or a successful resend for it |
| `Quarantine.ShortRunsMark` | auto_resend/src/MpAutoResendEngine.cpp:206-210 | every refusal in the first INT_MAX - 1 steps of a run leaves its pool fully processed |
| `Quiescence.CleanDrops` | auto_resend/src/MpAutoResendEngine.cpp:179-218 | a report strictly lowers the number of messages in clean pools, and no other internal step changes it |
| `Quiescence.RankFalls` | auto_resend/src/MpAutoResendEngine.cpp:103-218 | every internal step lowers one number, the bound on the steps to come |
| `Quiescence.Stops` | auto_resend/src/MpAutoResendEngine.cpp:103-218 | from every reachable state, in any mode and whatever the outcomes, the engine by itself makes at most that many steps: it stops |
| `Quiescence.OwedScan` | auto_resend/src/MpAutoResendEngine.cpp:103-134 | a handover keeps the account of sends owed if and only if the first queued message with its UID has at least its retries |
| `Quiescence.SendsBounded` | data_msg/src/MpMsgTransport.cpp:15-62 | in any mode, from any reachable state whose message in flight is backed, while handovers are backed the sends are at most the sum of the retries of the messages in clean pools |
| `Quiescence.SendsBoundedByUid` | data_msg/src/MpMsgTransport.cpp:15-62 | they are, from any reachable state in which recipient and UID determine the retries of the queued messages |
| `Quiescence.SendsBoundedInAutoMode` | data_msg/src/MpMsgTransport.cpp:15-62 | and from any reachable state with auto-resend on whose message in flight is backed |
| `Witness.SharedUidExceedsRetries` | data_msg/src/MpMsgTransport.cpp:15-62 | a manual-mode run with one UID and different retries that sends more |
| `Quiescence.Drained` | auto_resend/src/MpAutoResendEngine.cpp:103-218 | in any mode, whatever the UIDs, from any reachable state in which no wakeup is lost: without a refusal for it, the engine rests only after a clean pool whose messages can all be sent is empty, unless it is excused |
| `Quiescence.RestsWithoutWork` | auto_resend/src/MpAutoResendEngine.cpp:103-139 | with the SIP stack up, an engine on its way to a scan rests only when no pool at all is deliverable |
| `Fairness.BypassStep` | auto_resend/src/MpAutoResendEngine.cpp:103-139 | each internal step keeps the count of picks of another recipient plus its remaining allowance from growing |
| `Fairness.BoundedBypass` | auto_resend/src/MpAutoResendEngine.cpp:74-139 | while a waits with weight wa, a recipient of weight wb goes before it at most max(0, wa - wb + 1) times, if neither weight is about to wrap around |
| `Fairness.WeightsLow` | auto_resend/src/MpAutoResendEngine.cpp:201-205 | after fewer than INT_MAX steps no clean weight is |
| `Fairness.EqualShares` | auto_resend/src/MpAutoResendEngine.cpp:187-205 | from equal weights, the delivered counts of two recipients that stay deliverable differ by at most one, while their weights stay below the wrap-around |
| `Fairness.ShortRunsStayLight` | auto_resend/src/MpAutoResendEngine.cpp:201-205 | which they do in runs that are short enough |
| `Fairness.ResendLightest` | auto_resend/src/MpAutoResendEngine.cpp:325-331 | after a resend the recipient is strictly lightest among the clean pools if and only if no other clean pool stood at INT_MAX |
| `Fairness.DeliverableComesFirst` | auto_resend/src/MpAutoResendEngine.cpp:310-337 | after a successful resend for a then deliverable recipient with nothing in flight the next handover is what its pool offers, if no other clean weight wraps around |
| `Resends.ResendComesFirst` | auto_resend/src/MpAutoResendEngine.cpp:310-337 | a message resent with nothing before it, for a recipient with nothing in flight, is the next one handed over, however its pool was refused before, and with the SIP stack up the engine does not rest before that |
| `Fairness.ShortRunsAreLight` | auto_resend/src/MpAutoResendEngine.cpp:325-331 | after fewer than INT_MAX - 1 steps none does |
| `Removal.RemovalExact` | auto_resend/src/MpAutoResendEngine.cpp:277-281 | erasing the pool keeps the invariant of the engine if and only if there is none |
| `Removal.RemovalControl` | data_msg/src/MpMsgTransport.cpp:64-71 | cancelling keeps the meaning of `started_` if and only if the message in flight is for someone else |
| `Removal.RemovalStopsEngine` | auto_resend/src/MpAutoResendEngine.cpp:272-282 | after removing the recipient of the message in flight, whatever happens between its two regions and later, no message is ever sent again to anyone |
| `Payload.MsgPayload.constructor` | auto_resend/src/MpMsgPayload.cpp:22-36 | a message carries its content behind the type byte |
| `Payload.MsgPayload.SetPayload` | auto_resend/src/MpMsgPayload.cpp:44-58 | the type byte, 0 for plain messages and 1 for all others, then the content |
| `Payload.MsgPayload.CopyMsgPayload` | auto_resend/src/MpMsgPayload.cpp:3-16 | a copy has the same value and its own memory |
| `Payload.FramedContent` | auto_resend/src/MpMsgPayload.cpp:51-54 | the byte in front is 0 for a plain message and 1 for an invitation of any kind, and the content follows |
| `Codec.LengthInverse` | smkex/src/smkexrecord.cpp:92-112 | the detour through int16_t loses no length from 0 to 65535, both ways |
| `Codec.TimestampInverse` | smkex/src/smkexrecord.cpp:91-145 | every 64-bit timestamp, and every 8 bytes, survive |
| `Codec.DecodeEncode` | smkex/src/smkexrecord.cpp:87-167 | parsing a serialized record followed by any bytes gives the record and its length |
| `Codec.EncodedBytes` | smkex/src/smkexrecord.cpp:133-162 | the layout byte by byte: order of the fields, and every integer with its lowest byte first |
| `Codec.EncodeDecode` | smkex/src/smkexrecord.cpp:87-167 | re-serializing what was parsed gives the consumed bytes |
| `Codec.PrefixFree` | smkex/src/smkexrecord.cpp:130-167 | no serialization is a proper prefix of another |
| `Codec.NameSurvives` | smkex/src/smkexrecord.cpp:60-73 | a name reaches the receiver, with its terminating zero, if and only if it is shorter than 65535 bytes |
| `Codec.MadeRecordArrives` | smkex/src/smkexrecord.cpp:45-84 | of a record made for sending, everything but such a name reaches the receiver |
| `Codec.SerializeRecord` | smkex/src/smkexrecord.cpp:130-167 | the cursor over the buffer writes exactly the serialization |
| `Codec.GetRecordFromSerial` | smkex/src/smkexrecord.cpp:87-124 | the field-by-field reads return exactly the parsed record, or none when the declared lengths run past the end |
| `Delivery.PacketRoundTrip` | smkex/src/Smkex.cpp:312-312 | a framed, serialized record parses back after its type byte is skipped, for every message type |
| `Delivery.RecordsInOrder` | smkex/src/Smkex.cpp:82-93 | in any mode, from any reachable state with an empty queue for the recipient: while none is refused, the packets confirmed since parse to the first records added since, in order, each once, although they share a UID |
| `Delivery.RecordsInOrderInAutoMode` | smkex/src/Smkex.cpp:82-93 | while auto-resend stays on, also with refusals |
| `Delivery.RecordsAllArrive` | smkex/src/Smkex.cpp:82-93 | and to all of them, in any mode without a refusal or in auto mode, once the engine, left to itself in a state in which no wakeup is lost, rests without a refusal for the recipient and has not excused it |
| `Wire.WireIsHandovers` | data_msg/src/MpMsgTransport.cpp:15-62 | the packets on the wire are exactly the recipients and bytes of the messages handed over, in that order, with nothing between them but immediate repetitions |
| `SipUri.Find` | utils/src/MpUtils.cpp:11-12 | the first match of the schema |
| `SipUri.FindLast` | utils/src/MpUtils.cpp:13-14 | the last separator |
| `SipUri.SerialRoundTrip` | utils/src/MpUtils.cpp:4-31 | a printed serial, whatever it contains, reads back if and only if the address has no "@" |
| `SipUri.DecimalSpells` | utils/src/MpUtils.cpp:28-29 | a printed port is digits without a leading zero that spell it |
| `SipUri.PrintedParts` | utils/src/MpUtils.cpp:19-31 | the printed URI, taken apart at its last "@", its last ":" and the ";" after it, is the schema, the serial, the address, the port and the transport |
| `SipUri.ParsedNone` | utils/src/MpUtils.cpp:6-14 | the parser finds nothing exactly without the schema or a separator |
| `SipUri.ParsedBetween` | utils/src/MpUtils.cpp:11-16 | otherwise it returns what stands between the first schema and the last separator, or all the rest when the separator comes first |
| `Smkex.WrittenCheckIsStrncmp` | smkex/src/Smkex.cpp:299-307 | the check as written accepts if and only if some byte of H differs with no zero byte before it |
| `Smkex.WrittenCheckIsInverted` | smkex/src/Smkex.cpp:299-307 | without zero bytes it accepts exactly when the documented check rejects |
| `Smkex.Exchange.AddSessionInfo` | smkex/src/Smkex.cpp:31-39 | a session that exists is kept, whatever `force` says |
| `Smkex.Exchange.InitSession` | smkex/src/Smkex.cpp:153-175 | the branch for an existing session: key and nonce go out in this order and the status changes, unless they are out already |
| `Smkex.Exchange.ComputeAndStoreSessionKey` | smkex/src/Smkex.cpp:226-263 | the derived key is stored; bytes that are no curve point end the process |
| `Smkex.Exchange.ProcessMessage` | smkex/src/Smkex.cpp:311-506 | parses, finds or creates the session of the buddy, and does to it what the record asks |
| `Alerts.Moves` | smkex/src/Smkex.cpp:332-500 | for every record and status: the next status, the types of the records sent in answer, and when the process ends |
| `Alerts.StoresKey` | smkex/src/Smkex.cpp:334-402 | which states take a key, and which derive the session key from it |
| `Alerts.StoresNonce` | smkex/src/Smkex.cpp:410-434 | which states store a nonce, and where |
| `Alerts.StoresNonceH` | smkex/src/Smkex.cpp:444-488 | which states store a nonce with H, and where |
| `Alerts.AlertEnds` | smkex/src/Smkex.cpp:494-498 | after an alert no session is connected; who initiated starts again with a fresh nonce, having sent exactly its key and that nonce, and who did not sends nothing |
| `Alerts.RejectionAlerts` | smkex/src/Smkex.cpp:456-466 | a rejected H ends the session, and the last record sent is an alert |
| `Handshake.GoodHashExists` | smkex/src/Smkex.cpp:198-221 | both assumptions on H can be met |
| `Handshake.PlayStages` | smkex/src/Smkex.cpp:311-506 | if both checks accept, whatever the order of deliveries, the two sessions and the records in flight are always one of seven joint states |
| `Handshake.HonestHandshake` | smkex/src/Smkex.cpp:153-506 | if both checks accept, every run takes at most five deliveries, can stop only after five, and then both are connected with each other's keys and equal session keys |
| `Handshake.HonestOutcome` | smkex/src/Smkex.cpp:153-506 | for every order of five deliveries: both end connected if and only if both checks accept |
| `Alerts.FiveCheck` | smkex/src/Smkex.cpp:311-506 | for every order of the five deliveries both checks have then been made, and who rejected has sent an alert |
| `Alerts.RejectedStartsAgain` | smkex/src/Smkex.cpp:494-498 | after a rejected handshake and its alerts, in any order, the two sessions are again two idle peers: under way with the fresh nonce exactly when the responder rejected, otherwise waiting for the next initSession |
| `Handshake.RepeatedRecord` | smkex/src/Smkex.cpp:408-435 | a record that arrives once more right after itself changes nothing if and only if it is not the initiator's nonce, which then ends the responder's session |
| `Handshake.IntendedAccepts` | smkex/src/Smkex.cpp:198-307 | as documented, both checks accept every honest handshake |
| `Handshake.WrittenAccepts` | smkex/src/Smkex.cpp:198-307 | as written, both accept if and only if, as far as strlen sees, the responder's second nonce differs from its first and the initiator's does or it had not stored the responder's nonce |
| `Agreement.SendsGenuine` | smkex/src/Smkex.cpp:311-506 | whatever a peer receives, as written or as documented, the keys and H it sends are over its own public key |
| `Agreement.KeepsBelievingH` | smkex/src/Smkex.cpp:430-482 | as documented, when the channel of the keys is in other hands, each record keeps: connected only with the true key |
| `Agreement.KeepsBelievingKey` | smkex/src/Smkex.cpp:311-506 | as written and as documented, when the channel of the nonces is, each record keeps: every stored key is the true one |
| `Agreement.DuoStep` | smkex/src/Smkex.cpp:311-506 | each step of two peers and of whoever holds one channel keeps the joint invariant |
| `Agreement.AgreementHolds` | README.md:37-43 | with one of two channels in other hands, a connected peer holds the other's true public key and the right session key, and two connected peers hold the same session key: as documented for either channel, as written for that of the nonces |
| `Agreement.WrittenDisagrees` | smkex/src/Smkex.cpp:299-307 | a run of the code as written, with the channel of the keys in other hands, after which that fails |
| `Agreement.IntendedAgreement` | smkex/src/Smkex.cpp:198-307 | the documented check keeps it in all runs for either channel, if H has no collisions |
| `Agreement.WrittenAgreement` | smkex/src/Smkex.cpp:270-307 | the code as written keeps it in all runs if and only if the channel of the keys is honest, given one other key whose H strncmp tells apart |
| `Agreement.GoodHashTellsApart` | smkex/src/Smkex.cpp:299-307 | as it tells every key that strlen tells from the true one, if it tells any two H apart |

## Left out

- World.ProgressGoes: leaves out the lock over the connectors, with which the engine can deadlock; `Locks.NeverStuckExactly` has the exact statement.
- World.SingleOutstanding: covers every operation but removeMessagesForSerial, for which it is false; `Removal.RemovalExact` and `Removal.RemovalControl` say exactly when removal keeps the invariant.
- Engine.AutoResendEngine.MarkUserPoolProcessed: does not model what the connectors are told (auto_resend/src/MpAutoResendEngine.cpp:152-160); the lock taken for it is in `Locks`.
- Engine.AutoResendEngine.MessageStatus: does not model what the connectors are told (auto_resend/src/MpAutoResendEngine.cpp:169-177); the lock taken for it is in `Locks`.
- Handshake.HonestHandshake: starts from sessions made beforehand, as the main program makes them (tests/src/MpMain.cpp:86-92), and one initiator; rekeying, simultaneous initiation and a NonceH before the key have no progress claim.
- Codec.GetRecordFromSerial: reports declared lengths that run past the end of the buffer as no record, where the code reads on in memory.
- Smkex.Exchange.ProcessMessage: where the code reads past the end of a short nonce, a short H or a value without a zero byte, the model takes what there is; a key received while connected is stored as it is, where the code copies a fixed number of bytes.
- Smkex.WrittenCheckIsStrncmp: assumes a received value at least as long as H, since past its end the code reads on in memory.
- SipUri.SerialRoundTrip: covers URIs shorter than 2^64 characters, where size_t differences do not wrap twice.
- The no-session branch of initSession (smkex/src/Smkex.cpp:128-152): it sends a record type that the receiver does not handle and a raw nonce.
- addDBConnector, isMessageProcessing and isMessageAdded, and the field mutableWeight_: nothing else depends on them.
- The callback object msgNotif_: replaced by the outcome that OnSendMsgDone returns; the sleep between retries and the return code of sendMsg are not modelled.
- pjsua and sip_stack, OpenSSL, AES-GCM, key derivation, logging, malloc and free, and record printing except that an unknown record type ends the process.
- Call manager, buddy list, user account, callback pool, message callbacks and buffer copies: they would add only easy members.
