# A verified model of the MeshCore TCP multiplexer

One MeshCore companion node is shared among many TCP clients. The wire protocol has no request
identifiers, the companion has one radio, one destructive inbox and one temporary flood scope, and
connections fail. The broker of the multiplexer turns this into independent client views. This
project models the broker as a state machine over its events, states what it promises in every
reachable state and over whole runs, and proves it.

All files are given to Dafny together (`dafny verify dfyconfig.toml`).

## Layout

- `Wire`, `Protocol`, `NativeTable`: bytes and time, the reply grammar, and the concrete command
  table with every command and reply layout. The broker is proved for every table that meets
  `Protocol.TableOk`; `NativeTable` shows that the native one does.
- `AckRing`, `AckWorld`: the mirrored acknowledgement ring and the calls made on it; the physical ring
  behind it, with a mux that may call anything, and the rotation that runs in time keep. `AckExact`,
  `AckHarm`: the weakest condition under which nothing live is overwritten, and what happens without
  it. `AckBridge`, `AckReached`: the broker's calls keep it, and are also those of the failing runs.
- `Leases`, `LeaseObjects`, `Slots`: remote and signing leases, dedicated client slots, as functions
  and as the objects of the source.
- `Broker`: the state, and one function per handler and helper. Fields marked history record what
  happened; no decision depends on them. (`Txn.want` is not one of them: it is the scope the source
  reads from the owner's session at dispatch.)
- `BrokerObject`: the broker as an object with fields and loops; each method equals its function.
- `BrokerInvariant` and the files `BrokerClients`, `BrokerInbox`, `BrokerPops`, `BrokerWire`,
  `BrokerSchedule`, `BrokerReplies`, `BrokerScopes`, `BrokerEvents`: the inductive invariant, and that
  every event keeps it. `BrokerTrace`, `BrokerTraceEvents`: the histories are the real action stream.
  `BrokerHistory`: what was popped and kept follows from the upstream history. `BrokerSigning`: and so
  does what was signed. `BrokerWakeup`: a requested drain waits only for what is upstream.
- `BrokerRuns`, `BrokerTheorems`, `BrokerFailure`, `BrokerDebts`, `BrokerFairness`, `BrokerQuiet`,
  `BrokerSilence`, `BrokerDeadlines`: runs of any length over any number of epochs, and what follows
  for every reachable state and every event.
- `FrameCodec`, `Startup`, `TextIdentity`, `Dedup`: the TCP envelope, the startup fence, text
  identities, and the bounded deduplicator.

## Assumptions

- Time never goes back within an epoch, and session ids are fresh (`BrokerRuns.Legal`). Frames,
  closures, write completions and their epochs may be anything at any time.
- The configuration is valid (`Broker.ConfigOk`, after src/meshcore_tcp_mux/config.cr:66-84), and a reconnect happens only after a failed epoch.
- A companion that refuses a scope change with ERR leaves its scope as it was (`PhysicalScope`).
- A SENT reply answers a message the companion has executed, under the token of its acknowledgement entry;
  an ERR reply answers one it has not executed (`AckWorld.Legal`).
- An acknowledgement entry is given up by the firmware within the retained deadline of its reply, or,
  if the reply is never seen, within the radio uncertainty timeout of its insertion (`AckWorld.Legal`).
  A companion is met with an empty acknowledgement ring (`AckWorld.Start`).
- A message whose connection was lost before it was executed may be executed later by a handler that
  outlives the connection, at any time and any number of messages later (`AckWorld.ExecuteLate`). That
  this comes in time is not assumed; where it is asked for, the theorem says so.
- The companion does not reboot under the same key.

## Where the code decides

- An empty pop re-authorizes a drain when a hint newer than the pop has arrived, even if the
  authorization had been revoked meanwhile.
- A push never clears the response debt, not even the push that answers a self-telemetry request.
- A confirmation settles every entry with its token; a physical entry counts as live while no
  confirmation with its token has arrived since its insertion and its deadline has not passed.
- The quarantine after a lost send does not always outlast the entry it is for. It is counted from the
  broker's last clock reading: a closed socket ends the epoch without a time
  (src/meshcore_tcp_mux/runtime.cr:519, src/meshcore_tcp_mux/broker.cr:353), so a message executed after
  that reading can leave an entry that outlives it (`AckHarm.StaleReadingCanHarm`). And a handler that
  outlives its connection, the one src/meshcore_tcp_mux/broker.cr:209-216 is about, inserts an entry
  that lives its full timeout from then on, however fresh the reading was (`AckHarm.LateHandlerCanHarm`).
  In both runs eight later messages overwrite that entry while it lives; the calls are those of a
  reachable broker (`AckReached.HarmIsReachable`), which cannot tell the two runs apart.
- Exactly when this cannot happen: nothing live is overwritten, whatever follows, if and only if every
  live entry either dies within the quarantine or has a pending mirrored entry of its token, good for as
  long, among the places the mux must write before it gets there (`AckHarm.SecureIsExact`). For a loss
  this means that it left no exposed entry (`AckHarm.LossIsSafeUnlessExposed`), for a late execution that
  it overwrites nothing and leaves nothing unguarded (`AckHarm.LateExecutionIsSafeIfItSpares`), and
  within the quarantine, that its own entry dies within it or is mirrored by chance
  (`AckHarm.LateExecutionInQuarantine`). So a lost message that has not been executed is safe only as long
  as no late execution breaks its own condition. `AckExact.Benign` collects these conditions; a clock
  reading at or after the execution meets it (`AckWorld.ReadingAfterExecutionIsTimely`).
- A refused pop and a refused scope restore leave a response debt although their reply has terminated,
  and nothing else does: `BrokerDebts.StaleDebtsAreRefusals` is an if-and-only-if over all events.
- The startup fence holds for up to four retained frames and for no more (`Startup.FourIsTheLimit`): five
  stale replies can install a stale key, six a stale device record as well.

## Model

| member | source | states |
|---|---|---|
| BrokerRuns.ReachableIsGood | src/meshcore_tcp_mux/broker.cr:93-326 | every state reached by any legal run, over any number of epochs, satisfies the broker invariant, has truthful histories, and leaves no requested drain idle |
| BrokerRuns.StepKeeps | src/meshcore_tcp_mux/broker.cr:93-326 | each event alone keeps the whole invariant, whatever the companion, the clients and the writers do |
| BrokerTheorems.CommandsAreAnsweredInOrder | src/meshcore_tcp_mux/broker.cr:461-530 | the frames handed to a live session's writer carry the terminal answers to a prefix of its commands, one for one and in order; what is missing is the waiting sync, the command upstream, and the queue; never both a pending sync and the active transaction; every other frame is a push or a part of a stream, told by its code, and only a self-telemetry request is answered with a push code |
| BrokerTheorems.RepliesReachOnlyTheirOwner | src/meshcore_tcp_mux/broker.cr:662-730 | a forwarded reply is the visible form of an upstream reply owed to that very session, as its last frame exactly when the grammar terminates; hidden scope OKs and pop replies are never forwarded |
| BrokerSilence.DepartedHearNothing | src/meshcore_tcp_mux/broker.cr:146-152 | once a session has left, no run of events without its admission hands it another frame: its replies, results and pushes reach nobody |
| BrokerTheorems.RepliesAreRelayedExactlyOnce | src/meshcore_tcp_mux/broker.cr:608-730 | the replies passed on to a session are exactly those owed to it, once each and in order, and no reply is owed to two sessions |
| BrokerTheorems.UpstreamIsSerializedAndScoped | src/meshcore_tcp_mux/broker.cr:509-568 | no upstream frame is produced while a reply is owed; every client command and pop goes out while the physical scope is the one it wants, which is the default unless the command is scope sensitive |
| BrokerTheorems.IdleMeansDefaultScope | src/meshcore_tcp_mux/broker.cr:608-628 | with no active transaction the companion is in its default scope, owes nothing, and no upstream write is outstanding |
| BrokerTheorems.ScopeIsTheOwnersOwn | src/meshcore_tcp_mux/broker.cr:532-552 | a scope-sensitive command runs in the scope its owner was last told it is in, told from the frames it was sent |
| BrokerTheorems.MultiClientInboxIsExact | src/meshcore_tcp_mux/broker.cr:821-862 | what a multi-client session was sent followed by its inbox is the orphan it was handed followed by every kept pop since it joined, once each, in order, cut to its negotiated target; a pending sync means an empty inbox |
| BrokerTheorems.PopsAreTheKeptReplies | src/meshcore_tcp_mux/broker.cr:821-862 | the items popped in an epoch are the item replies to pops on its upstream connection; the kept pops of a companion are those that repeat no recent text; the deduplicator remembers exactly the window of the texts that companion gave, across connections |
| BrokerTheorems.SlotsConserveEveryItem | src/meshcore_tcp_mux/broker.cr:864-896 | every dedicated slot was offered every kept pop in order; arrivals are enqueued plus discarded, enqueued is delivered plus evicted plus cleared plus queued; delivered then queued is a subsequence of arrivals; its session was sent what it delivered |
| BrokerTheorems.NoFalseEmpty | src/meshcore_tcp_mux/broker.cr:821-836 | every NO_MORE_MESSAGES sent to a client is backed by a pop asked after that client's sync was registered and answered empty |
| BrokerTheorems.NoLostWakeup | src/meshcore_tcp_mux/broker.cr:479-487 | a waiting sync has an empty inbox, is covered by a requested drain or a pop in flight, and always has something upstream |
| BrokerTheorems.OrphanIsNeverOverwritten | src/meshcore_tcp_mux/broker.cr:854-859 | while an orphan is held no multi-client session lives and no pop in flight or owed could overwrite it |
| BrokerTheorems.OrphanGoesToTheNextMultiClient | src/meshcore_tcp_mux/broker.cr:118-121 | the next multi-client session is handed the orphan first, then everything popped later |
| BrokerTheorems.BroadcastReachesEveryone | src/meshcore_tcp_mux/broker.cr:786-818 | a broadcast push is sent exactly once to every listed session with room; it ends the epoch if and only if it is listed for the owner of a maintenance result awaiting its write, which has no room |
| BrokerTheorems.ResultsReachTheirRequester | src/meshcore_tcp_mux/broker.cr:770-785 | a late radio result reaches only a session that an earlier frame told its command is accepted, and fits that command by peer, tag or trace codes |
| BrokerTheorems.RemoteLeaseIsSound | src/meshcore_tcp_mux/leases.cr:117-183 | the remote lease is tentative exactly while its command is unanswered, owned by a live session or nobody, never without a deadline once decided; no uncaught exception is reachable |
| BrokerTheorems.SigningIsSound | src/meshcore_tcp_mux/leases.cr:328-438 | accepted bytes are the sum of the chunks; chunk for chunk these are the SIGN_DATA commands answered OK on the upstream connection since the last SIGN_START reply, all of the one owner; with the pending chunk never above the limit, so the subtraction cannot underflow; a signing reply always finds its own pending state and owner |
| BrokerTheorems.ResourcesStayBounded | src/meshcore_tcp_mux/broker.cr:138-142 | queue, sync and active command stay within the command limit, output within its bound; key import and factory reset run with their owner as the only session |
| BrokerTheorems.ActiveTransactionIsLegitimate | src/meshcore_tcp_mux/broker.cr:562-600 | the active command is valid, never a client's sync or scope change; the outstanding upstream writes are exactly the active transaction's |
| BrokerTheorems.OrderIsAPermutation | src/meshcore_tcp_mux/broker.cr:93-126 | the scheduling order is always zero and the live sessions, each once |
| BrokerFairness.BypassIsBounded | src/meshcore_tcp_mux/broker.cr:509-530 | while a live session waits with a command at its head, or the inbox consumer with a drain requested, fewer transactions are dispatched than the order had members, however clients come, go and speak |
| BrokerFairness.WaitingSyncIsServed | src/meshcore_tcp_mux/broker.cr:509-530 | while a sync waits and no pop is in flight, fewer transactions are dispatched than the order had members |
| BrokerFairness.StepFair | src/meshcore_tcp_mux/broker.cr:509-530 | no event raises the number of dispatches plus the rank of a session whose head is neither dispatched nor answered, or of the inbox consumer while its drain is requested |
| BrokerQuiet.DispatchedCommandsAreChecked | src/meshcore_tcp_mux/broker.cr:466-508 | a client command dispatched by a pass was found in that pass well formed, young enough, permitted, and neither a sync nor a scope change |
| BrokerQuiet.RestingAsksNothing | src/meshcore_tcp_mux/broker.cr:363-381 | from rest, no sequence of admissions, departures, polls, hints or other pushes makes the broker ask the companion for anything |
| BrokerFailure.NothingIsSentAfterFailure | src/meshcore_tcp_mux/broker.cr:308-326 | after a failure no event sequence of that epoch hands a frame to any writer |
| BrokerFailure.DebtIsClearedOnlyByItsReply | src/meshcore_tcp_mux/broker.cr:209-263 | the response debt is cleared if and only if a frame arrives that terminates the owed exchange |
| BrokerFailure.OwedItemIsKept | src/meshcore_tcp_mux/broker.cr:246-260 | a non-duplicate item returned by an owed pop is enqueued in every dedicated slot, and becomes the orphan if and only if a multi-client was present at dispatch |
| BrokerFailure.OwedReplyLeavesADebt | src/meshcore_tcp_mux/broker.cr:308-326 | a failed connection owes a reply if and only if it has a debt and did not just hear a pop or scope restore refused; the debt is for that reply, or for what was refused |
| BrokerDebts.StaleDebtsAreRefusals | src/meshcore_tcp_mux/broker.cr:608-695 | an event leaves a debt with nothing owed if and only if it is an in-time, well-formed ERR while a pop or a scope restore is upstream |
| AckExact.BenignRunsHarmNothing | src/meshcore_tcp_mux/leases.cr:270-297 | over every physical history whose calls are orderly as a log and whose losses and late executions are benign, under any tokens and any number of lost messages, no insertion overwrites a live physical entry and the mirror is what the calls lead to |
| AckExact.StepStaysSecure | src/meshcore_tcp_mux/leases.cr:45-82 | the weakest safety condition is kept by every legal event with calls in order that spares what is live |
| AckWorld.NoLiveEntryIsOverwritten | src/meshcore_tcp_mux/leases.cr:270-297 | the same for runs whose losses and late executions are in time: those keep the rotation as well |
| AckWorld.StepKeepsSafe | src/meshcore_tcp_mux/leases.cr:45-82 | some rotation maps every live physical entry to a live mirrored one, or the state is fenced by its quarantine; every legal event with calls in order keeps this, if losses and late executions are in time |
| AckWorld.LosingAMessageFences | src/meshcore_tcp_mux/leases.cr:287-297 | the quarantine after a lost message fences every live entry if and only if the message left no exposed one |
| AckHarm.SecureIsExact | src/meshcore_tcp_mux/leases.cr:270-297 | while no executed message waits for its reply, no benign continuation with calls in order overwrites a live entry if and only if every live entry is guarded and a handler still within its quarantine finds a free place |
| AckHarm.LateExecutionIsSafeIfItSpares | src/meshcore_tcp_mux/broker.cr:209-216 | after a late execution at any time, no benign continuation overwrites a live entry if and only if the execution overwrote none and left every live entry guarded |
| AckHarm.LateExecutionInQuarantine | src/meshcore_tcp_mux/broker.cr:337-361 | within the quarantine that is so if and only if the new entry dies by then or is mirrored by chance |
| AckHarm.LossIsSafeUnlessExposed | src/meshcore_tcp_mux/broker.cr:337-361 | after the loss of a message no benign continuation overwrites a live entry if and only if the loss left no live, unmirrored entry that outlives the quarantine counted from the last clock reading; late executions that are not benign are excluded here and have their own condition |
| AckHarm.StaleReadingCanHarm | src/meshcore_tcp_mux/broker.cr:337-361 | a run with every call in order, and all in time but one loss whose clock reading is older than the execution, overwrites a live entry |
| AckHarm.LateHandlerCanHarm | src/meshcore_tcp_mux/broker.cr:337-361 | a run with every call in order and a fresh reading at the loss, and all in time but one late execution, overwrites a live entry |
| AckReached.HarmIsReachable | src/meshcore_tcp_mux/broker.cr:570-606 | a reachable broker with the native table makes exactly the calls of both runs |
| AckBridge.BrokerNeverOverwritesALiveEntry | src/meshcore_tcp_mux/broker.cr:570-606 | for every reachable broker state and every physical history with the calls the broker made and benign losses and late executions, the admission discipline alone keeps every live entry; the mirror is that world's mirror, and a message is in flight there exactly when one is upstream |
| BrokerObject.Broker.Admit | src/meshcore_tcp_mux/broker.cr:93-126 | admission: replacement of a slot's session, orphan, hint, schedule; equals the model function |
| BrokerObject.Broker.ClientFrame | src/meshcore_tcp_mux/broker.cr:128-144 | queueing a command within the limit or removing the client; equals the model function |
| BrokerObject.Broker.ClientClosed | src/meshcore_tcp_mux/broker.cr:146-152 | a departure keeps the active command owned; equals the model function |
| BrokerObject.Broker.WriteCompleted | src/meshcore_tcp_mux/broker.cr:154-180 | completions of this epoch only; ends a delivered maintenance result; equals the model function |
| BrokerObject.Broker.WriteFailedAt | src/meshcore_tcp_mux/broker.cr:182-191 | a failed upstream write fails the epoch, a client's removes it |
| BrokerObject.Broker.UpstreamFrame | src/meshcore_tcp_mux/broker.cr:193-207 | deadlines, layout check, push or reply, and failure of the epoch where a protocol error is raised |
| BrokerObject.Broker.DrainUncertainFrame | src/meshcore_tcp_mux/broker.cr:209-263 | a frame on the poisoned connection: true exactly when no debt is left, and raised exactly for a frame that cannot be the next one of the owed exchange, which changes nothing |
| BrokerDeadlines.TickLeavesNothingLate | src/meshcore_tcp_mux/broker.cr:265-306 | after a tick the epoch has failed, or the active transaction, every upstream and client write, every waiting sync and every decided remote lease is before its deadline |
| BrokerObject.Broker.Tick | src/meshcore_tcp_mux/broker.cr:265-306 | deadlines of the transaction, of writes, syncs and leases, then polling and scheduling |
| BrokerObject.Broker.Fail | src/meshcore_tcp_mux/broker.cr:308-326 | the radio uncertainty, the debt, and the loop that removes every client, including the one that awaits a maintenance result |
| BrokerObject.Broker.PreserveRadioUncertainty | src/meshcore_tcp_mux/broker.cr:337-361 | which failures quarantine the radio, and what becomes of the remote reservation |
| BrokerObject.Broker.RemoveSession | src/meshcore_tcp_mux/broker.cr:411-437 | leaving: slot, leases, order, drain, and the end of a maintenance result |
| BrokerObject.Broker.EmitFrame | src/meshcore_tcp_mux/broker.cr:439-452 | output within its bound, or removal; the write id exactly when accepted |
| BrokerObject.Broker.EmitHint | src/meshcore_tcp_mux/broker.cr:376-381 | at most one outstanding availability hint |
| BrokerObject.Broker.CheckActiveDeadline | src/meshcore_tcp_mux/broker.cr:383-409 | the response and contacts deadlines, and the debt kept when they pass |
| BrokerObject.Broker.RunSchedule | src/meshcore_tcp_mux/broker.cr:461-530 | the local round and the rotation up to the first dispatch |
| BrokerObject.Broker.DecideHeads | src/meshcore_tcp_mux/broker.cr:471-507 | the loop over a client's local head commands |
| BrokerObject.Broker.RotateOrder | src/meshcore_tcp_mux/broker.cr:510-529 | the round-robin loop |
| BrokerObject.Broker.Start | src/meshcore_tcp_mux/broker.cr:532-552 | a new transaction, with hidden scope setup when its owner's scope is not the default |
| BrokerObject.Broker.AdmitCommand | src/meshcore_tcp_mux/broker.cr:570-606 | shared-resource admission and its refusal reasons |
| BrokerObject.Broker.HandleScope | src/meshcore_tcp_mux/broker.cr:608-628 | replies to hidden scope changes |
| BrokerObject.Broker.Accept | src/meshcore_tcp_mux/broker.cr:630-653 | the branches that settle ring, remote lease and signing after a final reply, and where they raise |
| BrokerObject.Broker.FinishTransaction | src/meshcore_tcp_mux/broker.cr:655-660 | release, and the end of the epoch after maintenance |
| BrokerObject.Broker.HandleReply | src/meshcore_tcp_mux/broker.cr:662-730 | routing of an ordinary reply by transaction step |
| BrokerObject.Broker.Relay | src/meshcore_tcp_mux/broker.cr:697-729 | forwarding to the owner, target negotiation, and completion |
| BrokerObject.Broker.HandlePush | src/meshcore_tcp_mux/broker.cr:744-819 | hints, confirmations, remote results, self telemetry and broadcasts |
| BrokerObject.Broker.HandlePop | src/meshcore_tcp_mux/broker.cr:821-862 | an empty pop, a duplicate, or an item handed out |
| BrokerObject.Broker.FanOutDedicated | src/meshcore_tcp_mux/broker.cr:864-896 | the loop over dedicated slots |
| BrokerObject.Broker.EnqueueMultiClient | src/meshcore_tcp_mux/broker.cr:914-929 | inbox bound, immediate delivery to a waiting sync, or a hint |
| BrokerObject.Broker.DeliverItem | src/meshcore_tcp_mux/broker.cr:941-951 | an item leaves its queue only when output accepted it |
| LeaseObjects.DmRing.Available | src/meshcore_tcp_mux/leases.cr:45-48 | whether the next ring slot is free |
| LeaseObjects.DmRing.Accepted | src/meshcore_tcp_mux/leases.cr:50-62 | a SENT reply takes the next slot unless its token is zero; raises on another payload or an occupied slot |
| LeaseObjects.DmRing.Confirm | src/meshcore_tcp_mux/leases.cr:64-78 | every equal token is settled, and whether one was pending |
| LeaseObjects.DmRing.PendingCount | src/meshcore_tcp_mux/leases.cr:80-82 | the number of entries still pending, positive exactly when one is |
| LeaseObjects.CompanionRadioState.IsQuarantined | src/meshcore_tcp_mux/leases.cr:270-285 | the quarantine, lifted by asking once it is over |
| LeaseObjects.CompanionRadioState.Impose | src/meshcore_tcp_mux/leases.cr:287-297 | the latest bound and the uncertain cursor are kept |
| LeaseObjects.RemoteLease.ReserveFor | src/meshcore_tcp_mux/leases.cr:117-134 | reservation, conflict, or unfit command |
| LeaseObjects.RemoteLease.Accepted | src/meshcore_tcp_mux/leases.cr:136-142 | tag and deadline from SENT, only for a tentative lease |
| LeaseObjects.RemoteLease.AcceptanceUnknown | src/meshcore_tcp_mux/leases.cr:149-157 | the lease loses its owner and waits out its bound |
| LeaseObjects.RemoteLease.Match | src/meshcore_tcp_mux/leases.cr:159-170 | a matching push releases the lease, with or without an owner |
| LeaseObjects.SigningLease.Start | src/meshcore_tcp_mux/leases.cr:328-343 | a start by the owner or when free; a restart forgets the old operation; raises exactly for another command |
| LeaseObjects.SigningLease.AcceptedStart | src/meshcore_tcp_mux/leases.cr:345-351 | the advertised limit, only for a tentative start; raises otherwise |
| LeaseObjects.SigningLease.StartFinish | src/meshcore_tcp_mux/leases.cr:383-389 | finishing is admitted only to the owner of an idle operation; raises exactly for another command |
| LeaseObjects.SigningLease.StartData | src/meshcore_tcp_mux/leases.cr:357-367 | a chunk is admitted only if it fits what is left; raises exactly for another command or no data |
| LeaseObjects.SigningLease.DataAnswered | src/meshcore_tcp_mux/leases.cr:369-381 | accepted, abandoned, or retried |
| LeaseObjects.SigningLease.FinishAnswered | src/meshcore_tcp_mux/leases.cr:391-405 | finished, abandoned, or retried |
| Slots.DedicatedClientSlot.EnqueueOffline | src/meshcore_tcp_mux/dedicated_client_slot.cr:28-48 | bounded enqueue with conservation of every counter |
| Slots.DedicatedClientSlot.RecordDelivery | src/meshcore_tcp_mux/dedicated_client_slot.cr:50-54 | the oldest item leaves the queue and is counted once |
| Slots.DedicatedClientSlot.Discard | src/meshcore_tcp_mux/dedicated_client_slot.cr:56-62 | clearing counts what it discards |
| Slots.EnqueueEvictsOldestChannel | src/meshcore_tcp_mux/dedicated_client_slot.cr:28-48 | at capacity exactly the oldest channel-class item makes way; without one the new item is dropped |
| Slots.EnqueueConserves | src/meshcore_tcp_mux/dedicated_client_slot.cr:28-54 | enqueueing keeps the counters balanced, the order, and the bound |
| Slots.ClearConserves | src/meshcore_tcp_mux/dedicated_client_slot.cr:56-62 | clearing keeps the counters balanced |
| FrameCodec.Decoder.FeedAll | src/meshcore_tcp_mux/frame_codec.cr:46-79 | chunks fed one after the other yield the payloads, the malformed-frame error or the unfinished frame of the whole stream; the deadline error comes exactly if some chunk arrives when the frame in assembly is overdue, and then the payloads are those of the chunks before the first such one |
| FrameCodec.ChunksDoNotMatter | src/meshcore_tcp_mux/frame_codec.cr:46-79 | reading on from what each chunk left unfinished is reading the whole stream, however it is cut |
| FrameCodec.RoundTrip | src/meshcore_tcp_mux/frame_codec.cr:131-146 | decoding a concatenation of encoded payloads of size 1 to 176 returns exactly those payloads |
| FrameCodec.TricklingBuysNoTime | src/meshcore_tcp_mux/frame_codec.cr:81-104 | as long as a frame is incomplete its deadline is counted from its first byte |
| FrameCodec.Decoder.Feed | src/meshcore_tcp_mux/frame_codec.cr:46-79 | the incremental decoder agrees with the whole-stream parser resumed at its buffer, and keeps a frame's start |
| FrameCodec.Decoder.Finish | src/meshcore_tcp_mux/frame_codec.cr:91-100 | the end of the stream is an error exactly inside a frame |
| FrameCodec.Decoder.CheckDeadline | src/meshcore_tcp_mux/frame_codec.cr:81-89 | the deadline error exactly when the assembly is overdue |
| FrameCodec.Encode | src/meshcore_tcp_mux/frame_codec.cr:131-151 | the envelope, or an error exactly for a bad marker or size |
| Startup.StaleRepliesCannotPass | src/meshcore_tcp_mux/startup.cr:48-76 | with at most four stale frames, contacts frames and pushes at any place, and any own replies lost, startup errs, waits, or has exactly its own device record and key |
| Startup.FourIsTheLimit | src/meshcore_tcp_mux/startup.cr:58-69 | the fence is safe for every sequence with at most n stale frames if and only if n is at most four |
| Startup.StartupGetsThrough | src/meshcore_tcp_mux/startup.cr:35-76 | when no own reply is lost and nothing stale is an error, startup becomes ready |
| Startup.FiveStaleRepliesPass | src/meshcore_tcp_mux/startup.cr:58-69 | with five stale frames a key other than the genuine one passes |
| Startup.SixStaleRepliesPass | src/meshcore_tcp_mux/startup.cr:58-69 | with six stale frames startup becomes ready with neither the genuine record nor the genuine key |
| Startup.Handshake.Accept | src/meshcore_tcp_mux/startup.cr:44-76 | one frame of the handshake; clients see the capped device record |
| TextIdentity.IdentityIsInjective | src/meshcore_tcp_mux/protocol.cr:388-406 | equal identity strings mean equal class, sender or channel, type, timestamp and body |
| TextIdentity.DowngradePreservesText | src/meshcore_tcp_mux/protocol.cr:940-958 | a downgraded valid V3 text is a valid legacy text with the same identity |
| Dedup.MemoryIsAWindow | src/meshcore_tcp_mux/received_message_deduplicator.cr:19-31 | the memory is the last 1024 identities recorded, without repeats |
| Dedup.DuplicateMeansSeenRecently | src/meshcore_tcp_mux/received_message_deduplicator.cr:19-31 | a text is a duplicate if and only if its identity is among the last 1024 recorded |
| Dedup.Deduplicator.IsDuplicate | src/meshcore_tcp_mux/received_message_deduplicator.cr:16-31 | the set and the queue stay in step and refine that window |
| NativeTable.NativeTableIsOk | src/meshcore_tcp_mux/protocol.cr:533-603 | the native command table and layouts meet all the broker relies on |
| NativeTable.NativeShapesOk | src/meshcore_tcp_mux/protocol.cr:789-938 | the reply layouts the broker reads are long enough for what it reads |
| NativeTable.NativeLeasable | src/meshcore_tcp_mux/protocol.cr:615-734 | a valid remote command is long enough for every field a lease reads |

## Left out

- Broker.Session and the lease, slot and deduplicator objects inside the broker are values there; `BrokerObject` replaces them as a whole instead of sharing references, so aliasing between the broker and the runtime is not captured.
- BrokerObject.Broker.DrainUncertainFrame: what the runtime does after the exception is not modelled.
- AckExact.BenignRunsHarmNothing: asks that losses and late executions be benign; the source does not ensure it, see the two failing runs above.
- AckWorld.NoLiveEntryIsOverwritten: asks more, that they be in time.
- AckBridge.BrokerNeverOverwritesALiveEntry: asks that they be benign.
- AckHarm.SecureIsExact: does not decide the moments in which an executed message waits for its reply.
- BrokerSilence.DepartedHearNothing: what a session was handed in the very event that removes it is in the action history, but no theorem justifies those frames.
- Actions are recorded as one history; handing them to the runtime in batches (`take_actions`) is not modelled.
- Diagnostics, log counters and their rate limits, and all descriptive text formatting except identity strings.
- The runtime: sockets, fibers, select loops, backoff, listening ports. Of an epoch change only the identity rule is modelled (same key keeps radio state, slots and orphan; another key discards them).
- Configuration parsing and process setup; a valid configuration is assumed.
- Same-key reboots of the companion, radio delivery and application receipt, which the protocol cannot show.
- Startup.Handshake.Accept: after an error the object's fields are not specified, since the connection is abandoned.
- Integer widths of identifiers and counters (64 bits in the source) are unbounded here.
