# Verification of the signalling engine

A Dafny model of the B2BUA's signalling engine and proofs about it, in six parts that build on each other.

* **Transactions.** `ServerSpec` and `ClientSpec` say what every handler of a transaction does to its state; the
  classes in `ServerTransaction`, `ClientTransaction` and `TransactionManager` are the mutable objects, each method
  proved to do just that. `ServerProperties`, `ServerLaws`, `ClientProperties`, `Backoff` and `IndexCoherence` prove what
  holds over whole runs: timers, outcomes, what is delivered and sent, the number of copies, and the agreement of the
  manager's tables across re-keying, which the manager's objects are shown to keep. `Timeouts` keeps account of the timer
  objects.
* **Caches.** `RetransmissionCache` proves both two-generation caches against a map that remembers ages.
* **The user agent.** `UaSpec` holds every handler of every state, the class in `UserAgent` is the object with its fields
  and its emission loop. `UaHandlers` treats handlers one by one, `UaRuns` whole runs, `UaReports` what the controller
  is told, `UaLaws` what messages and events mean to each other.
* **Two legs.** `Relay` joins two agents by the controller of the simple B2BUA, whose object form is `CallController`;
  `RelayTransparency` says what passes between them, `HalfOpenCall` holds the run that shows what has to be excluded;
  `ReliableProvisionals` joins the two ends of an INVITE by a network that loses, repeats and reorders.
* **Routes and address lists.** `Routing` and `AddressList`.
* **SDP.** `Text`, `SdpSpec`, `SdpProperties`, `SdpReading` and `SdpObjects`.

Strings that the engine only compares (tags, branches, Call-IDs, bodies, hosts) are numbers; texts that it takes apart
are sequences of code points. Times are milliseconds and a timer is its deadline. A run is a sequence of inputs, each
with the time it happens at; a handler is one atomic step. Clocks, generated tags, the network and the application's
callbacks are parameters or recorded effects.

Where the code differs from what its comments or the RFCs ask for, the model follows the code: the loop check looks for
branches in the wrong place, a final response may be repeated after its ACK, a CANCEL may come after the end of a call,
a pre-connect event overtakes an unacknowledged offer, a late 100 leaves the caller's leg waiting for good, an ACK
without a Contact loses its target behind a strict router, a re-INVITE that crosses the ACK to a late offer can end
one leg alone, a strict router may take the place of the target, the first PRACK leaves before the route set is known,
and a repeated final response in user-ACK mode leaves a timer behind. Each has a lemma that shows it or says exactly
when it happens, and most have both.

`dafny verify dfyconfig.toml` checks everything.

## Model

| member | source | states |
|---|---|---|
| Messages.LoopCheckNeverFires | sippy/sip_transaction_manager.go:437-459 | with branches generated by our side, the loop check of an incoming request never answers 482, whatever arrives |
| Messages.LoopCheckMissesALoop | sippy/sip_msg.go:450-481 | a concrete request that does loop through one of our client transactions and is not detected |
| Messages.LoopCheckExactly | sippy/sip_msg.go:450-481 | for any table: the check fires if and only if a key without a branch carries one of the request's branches as its To tag |
| TransactionManagers.SipTransactionManager.FindKey | sippy/sip_transaction_manager.go:460-488 | the key under which a request is looked up: To tag for ACK, RAck for PRACK, branch otherwise |
| TransactionManagers.SipTransactionManager.IncomingRequest | sippy/sip_transaction_manager.go:437-526 | a request is refused as a loop, handed to exactly the transaction its key leads to, dropped, refused with 481, or creates a transaction registered under its own key; the objects then are what `IndexCoherence.Perform` gives, no other transaction changes, and the manager stays coherent if and only if the guard of that action holds |
| TransactionManagers.SipTransactionManager.SendResponse | sippy/sip_transaction_manager.go:647-669 | a response reaches the transaction of its key and no other, only if that has sent no final response yet, and coherence is kept under the same condition |
| TransactionManagers.SipTransactionManager.NewServerTransaction | sippy/sip_transaction_manager.go:530-556 | a new transaction is registered under the key of its request and coherence is always kept |
| TransactionManagers.SipTransactionManager.TimerFires | sippy/server_transaction.go:148-173 | whichever timer of whichever transaction fires, no other changes and coherence is kept under the same condition |
| ServerTransactions.TransactionTables.TserverReplace | sippy/sip_transaction_manager.go:726-731 | the entry moves from the old to the new identifier |
| ServerTransactions.TransactionTables.RtidReplace | sippy/sip_transaction_manager.go:747-753 | a RAck entry follows the transaction only while it still points at its old identifier |
| ServerTransactions.ServerTransaction.SendResponse | sippy/server_transaction.go:275-390 | the object does what `ServerSpec.SendResponse` says: the whole new state of transaction and tables: numbering and PRACK timer of reliable provisional responses, timers A, D and E, re-keying by To tag, end of a non-INVITE transaction |
| ServerTransactions.ServerTransaction.Rekey | sippy/server_transaction.go:351-373 | the identifier loses its branch and gains the To tag, and both tables follow |
| ServerTransactions.ServerTransaction.DoCancel | sippy/server_transaction.go:183-193 | the object does what `ServerSpec.DoCancel` says: an INVITE is answered with 487, then the cancel callback is called |
| ServerTransactions.ServerTransaction.RecvAck | sippy/server_transaction.go:223-239 | the object does what `ServerSpec.RecvAck` says: an ACK stops timer A, calls its callback once and ends the transaction unless a provisional response is unacknowledged |
| ServerTransactions.ServerTransaction.RecvPrack | sippy/server_transaction.go:240-261 | the object does what `ServerSpec.RecvPrack` says: a PRACK for the response in flight is taken and answered 200, any other 481 |
| ServerTransactions.ServerTransaction.IncomingRequest | sippy/server_transaction.go:195-269 | the object does what `ServerSpec.IncomingRequest` says: duplicates repeat the last response; CANCEL, ACK and PRACK go to their handlers; everything else is ignored |
| ServerTransactions.ServerTransaction.TimerA | sippy/base_transaction.go:104-118 | the object does what `ServerSpec.TimerA` says: the last response is repeated and the interval doubled |
| ServerTransactions.ServerTransaction.TimerD | sippy/server_transaction.go:148-159 | the object does what `ServerSpec.TimerD` says: the no-ACK callback is called unless the ACK came, and the transaction ends |
| ServerTransactions.ServerTransaction.TimerE | sippy/server_transaction.go:161-173 | the object does what `ServerSpec.TimerE` says: an INVITE without a final response in time is cancelled |
| ServerTransactions.ServerTransaction.TimerPrack | sippy/server_transaction.go:428-454 | the object does what `ServerSpec.TimerPrack` says: a reliable provisional response is repeated with doubled intervals, and given up after the interval passed 16 s |
| ServerProperties.ApplyKeepsInv | sippy/server_transaction.go:101-181 | timer discipline in both directions for every input: E exactly before the final response of a live INVITE, D exactly after it, A exactly while its ACK is awaited, none after cleanup; an outcome callback settles the transaction |
| ServerProperties.AfterSettled | sippy/server_transaction.go:148-159 | after the ACK nothing is transmitted in any run, but for what the PRACK timer repeats; after the no-ACK outcome, as after any cleanup, nothing is put out at all |
| ServerProperties.ServerOutcome | sippy/server_transaction.go:195-269 | in every run the ACK and no-ACK outcomes exclude each other, each happens at most once, only the PRACK timer transmits after the ACK, and nothing comes after the no-ACK outcome |
| ServerProperties.FinalRepeatedAfterAck | sippy/server_transaction.go:428-454 | a run in which the final response is repeated after the ACK, because a provisional response is still unacknowledged |
| ServerProperties.AckSettles | sippy/server_transaction.go:223-239 | an ACK leaves something that may still transmit if and only if a provisional response is unacknowledged as it arrives |
| ServerLaws.EveryResponseLeaves | sippy/server_transaction.go:275-390 | every response of an unanswered transaction leaves once, with its code and body, a To tag over 100 and the next number if it is sent reliably; timers A, D and the PRACK timer start with 500 ms, 32 s and 500 ms |
| ServerLaws.EveryRequestAnswered | sippy/server_transaction.go:195-269 | for every request that reaches a live transaction, exactly what is put out: repetition, 200 and 487 to a CANCEL, the ACK callback, 200 or 481 to a PRACK |
| ServerLaws.ExpiryFromCreation | sippy/server_transaction.go:101-105 | an INVITE is given its expiry time from its creation, under the key of its topmost branch |
| ServerLaws.ExpiryCancels | sippy/server_transaction.go:161-173 | timer E answers an INVITE with 487 and calls the cancel callback |
| ServerLaws.SilenceTold | sippy/server_transaction.go:148-159 | timer D calls the no-ACK callback if no ACK came, and ends the transaction |
| ServerLaws.PrackTimerActs | sippy/server_transaction.go:428-454 | each firing repeats the last response with twice the interval; after an interval over 16 s it gives up and tells a user that still rings |
| ServerLaws.ExactlyTheOutcome | sippy/server_transaction.go:223-239 | in every run the user hears of exactly the first outcome it asked for: the ACK or its absence, whichever comes first |
| Backoff.FinalCopies | sippy/base_transaction.go:104-118 | in every run at most six repetitions of a final response to an INVITE leave within its 32 s |
| Backoff.FinalBackoffStarts | sippy/server_transaction.go:344-382 | sending the final response starts that count at zero, so seven copies at most |
| Backoff.PrackFiring | sippy/server_transaction.go:428-454 | the k-th repetition of a reliable provisional response comes at 500(2^k - 1) ms, and it is given up at the seventh firing, not before 63.5 s |
| Backoff.PrackCopies | sippy/server_transaction.go:320-327 | in every run, whatever else is sent reliably meanwhile, each reliable provisional response is repeated at most six times |
| IndexCoherence.PerformKeepsCoherent | sippy/sip_transaction_manager.go:726-765 | for any number of transactions and every action: the indexes stay coherent if and only if a final response does not take a registered identifier and a reliable one not an outstanding RAck |
| IndexCoherence.RunKeepsCoherent | sippy/server_transaction.go:351-373 | in every such run every live transaction is registered under exactly its current identifier, and every outstanding RAck leads to it |
| IndexCoherence.AckFindsTransaction | sippy/sip_transaction_manager.go:460-470 | the ACK to a final response finds its transaction whatever branch it has |
| IndexCoherence.RequestFindsTransaction | sippy/sip_transaction_manager.go:471-488 | a CANCEL or a repetition of a request without a final response finds its transaction by the topmost branch |
| IndexCoherence.PrackFindsTransaction | sippy/sip_transaction_manager.go:463-468 | the PRACK for a response in flight finds its transaction before and after the final response changed the key |
| IndexCoherence.ResentInviteMissesTransaction | sippy/sip_transaction_manager.go:471-488 | an INVITE repeated after the final response does not find the re-keyed transaction |
| IndexCoherence.MergedInvitesShareRAck | sippy/sip_transaction_manager.go:761-765 | a run from the empty tables in which two transactions of one merged INVITE ask for the same RAck and the index becomes incoherent |
| ClientTransactions.ClientTransaction.IncomingResponse | sippy/client_transaction.go:193-230 | the object does what `ClientSpec.IncomingResponse` says: the whole new state for a response: seen RSeq values, timers A and B, then provisional or final handling; a `Timeout` that still waits is lost if and only if another final response in user-ACK mode starts timer G again |
| ClientTransactions.ClientTransaction.ProcessProvisionalResponse | sippy/client_transaction.go:232-247 | the object does what `ClientSpec.ProcessProvisional` says: timer B restarts; the first provisional response begins a CANCEL that was asked for |
| ClientTransactions.ClientTransaction.ProcessFinalResponse | sippy/client_transaction.go:249-355 | the object does what `ClientSpec.ProcessFinal` says: the response is delivered; an ACK goes out or waits for the user; the transaction ends or waits with timer G |
| ClientTransactions.ClientTransaction.TimerB | sippy/client_transaction.go:144-160 | the object does what `ClientSpec.TimerB` says: a synthesised 408 is delivered and timer C armed |
| ClientTransactions.ClientTransaction.Cancel | sippy/client_transaction.go:357-375 | the object does what `ClientSpec.Cancel` says: a CANCEL is begun only in the ringing state, and remembered otherwise |
| ClientTransactions.ClientTransaction.SendACK | sippy/client_transaction.go:385-396 | the object does what `ClientSpec.SendACK` says: the user's ACK is sent and the transaction ends |
| ClientTransactions.ClientTransaction.CheckRSeq | sippy/client_transaction.go:425-431 | the object does what `ClientSpec.CheckRSeq` says: a number is accepted if it is the first or the next |
| Timeouts.FieldKeeps | sippy/timeout.go:88-90 | whatever a transaction does to a timer field, no `Timeout` is cancelled twice, and one that still waits is lost if and only if the field is overwritten or emptied |
| ClientProperties.ApplyKeepsInv | sippy/client_transaction.go:117-191 | timer discipline for every input: B while waiting, C exactly in TERMINATED, A exactly before the first response, none after cleanup |
| ClientProperties.AfterDone | sippy/client_transaction.go:122-131 | a finished transaction delivers nothing and begins no CANCEL, whatever follows |
| ClientProperties.ClientOutcome | sippy/client_transaction.go:193-230 | in every run without user-ACK mode at most one final response is delivered, counting the 408, and nothing after it |
| ClientProperties.UackDeliversTwice | sippy/client_transaction.go:200-203 | in user-ACK mode a second final response is delivered |
| ClientProperties.FinalHandled | sippy/client_transaction.go:249-355 | a final response is delivered once and first; an INVITE is acknowledged once unless the user does it, anything else is not, and the transaction unregisters or waits 64 s |
| ClientProperties.ProvisionalHandled | sippy/client_transaction.go:204-247 | a provisional response is delivered unless it is a reliable one seen before, is then seen, and timer B starts anew |
| ClientProperties.TimeoutHandled | sippy/client_transaction.go:144-160 | timer B delivers a 408 and leaves timer C with 32 s |
| ClientProperties.UserHandled | sippy/client_transaction.go:162-178 | timers C and G, a CANCEL asked for and the user's ACK: exactly what is put out and what is left |
| ClientProperties.NumbersAccepted | sippy/client_transaction.go:425-431 | the first number is accepted whatever it is, then exactly the next ones |
| ClientProperties.BeginStarts | sippy/client_transaction.go:117-120 | the request leaves once, timer A is due after 500 ms and timer B after 32 s |
| ClientProperties.ExactlyTheVerdict | sippy/client_transaction.go:193-230 | in every run without user-ACK mode the final responses delivered are exactly the first verdict: the response that came, or 408 if timer B came first |
| ClientProperties.CancelDeferred | sippy/client_transaction.go:357-375 | before a response no CANCEL is begun however often it is asked for, and the wish is remembered exactly |
| ClientProperties.WaitEnds | sippy/client_transaction.go:232-247 | a provisional response begins exactly one CANCEL if one was asked for; a final response or timer B begins none, then or later, in user-ACK mode too |
| ClientProperties.RequestCopies | sippy/client_transaction.go:117-120 | in every run at most seven copies of a request leave in 32 s |
| RetransmissionCache.FoundExactly | sippy/sip_transaction_manager.go:152-182 | after any history a key is found if and only if fewer than two purges happened since its last put, with what was put |
| RetransmissionCache.ProcessedExactly | sippy/sip_transaction_manager.go:196-226 | a datagram is processed if and only if it has 32 bytes and is not remembered, and is remembered without a reply from then on |
| RetransmissionCache.NotDispatchedTwice | sippy/sip_transaction_manager.go:196-226 | between two dispatches of the same datagram lie at least two purges |
| RetransmissionCache.RetransmissionTable.RCachePurge | sippy/sip_transaction_manager.go:117-123 | the two generations move on |
| RetransmissionCache.RetransmissionTable.HandleIncoming | sippy/sip_transaction_manager.go:196-226 | a datagram is too short, absorbed, answered again or processed, exactly as the history of puts and purges says |
| RetransmissionCache.AddressKeptExactly | sippy/local4remote.go:102-151 | a host keeps its local address if and only if fewer than two rotations passed since it was last looked up |
| RetransmissionCache.LocalAddresses.GetAddress | sippy/local4remote.go:102-151 | the lookup with promotion returns that address |
| RetransmissionCache.LocalAddresses.RotateCache | sippy/local4remote.go:170-176 | the new generation becomes the old one |
| UserAgents.UserAgent.EmitEvent | sippy/ua.go:357-366 | the object does what `UaSpec.Emit` says: an event is handed over unless a later one was |
| UserAgents.UserAgent.EmitPendingEvents | sippy/ua.go:368-378 | the object does what `UaSpec.EmitAll` says: the loop hands over all waiting events, skipping those that were overtaken |
| UserAgents.UserAgent.ChangeState | sippy/ua.go:344-355 | the object does what `UaSpec.ChangeState` says: what the old state does when left, the new one when entered, then the callback |
| UserAgents.UserAgent.RecvRequest | sippy/ua.go:167-233 | the object does what `UaSpec.RecvRequest` says: CSeq check, refusal of 100rel without a body, first INVITE, the state's handler, the change of state, the loop |
| UserAgents.UserAgent.RecvResponse | sippy/ua.go:235-265 | the object does what `UaSpec.RecvResponse` says: the state's handler, the change of state, the loop |
| UserAgents.UserAgent.RecvEvent | sippy/ua.go:289-310 | the object does what `UaSpec.RecvEvent` says: the first event, the state's handler, the change of state, the loop |
| UserAgents.UserAgent.DisconnectCall | sippy/ua.go:312-322 | the object does what `UaSpec.Hangup` says: one disconnect for the controller, one for the agent itself, none for a dead agent |
| UserAgents.UserAgent.SetupTimerExpires | sippy/ua.go:324-337 | the object does what `UaSpec.SetupTimerFires` says: the timer is forgotten and the call disconnected |
| UserAgents.UserAgent.RecvAck | sippy/uas_state_preconnect.go:159-193 | the object does what `UaSpec.RecvAck` says: the ACK connects, announces a connection it confirms, and lets the pending update go |
| UserAgents.UserAgent.RecvPrack | sippy/uas_state_ringing_rel.go:85-112 | the object does what `UaSpec.RecvPrack` says: the PRACK lets the held connect or else the held ring go, then the update; what is still held is forgotten |
| UserAgents.UserAgent.RecvCancel | sippy/uas_state_trying.go:132-140 | the object does what `UaSpec.RecvCancel` says: the call is disconnected and the event passes the queue |
| UserAgents.UserAgent.UacIdleRecvEvent | sippy/uac_state_idle.go:54-164 | the object does what `UaSpec.UacIdleEvent` says: setup of an outgoing call and choice of its first timer; events that end it |
| UserAgents.UserAgent.EscalateTimers | sippy/uac_state_trying.go:58-65 | the object does what `UaSpec.Escalate` says: the no-reply timer gives way to the no-progress or the expiry timer |
| UserAgents.UserAgent.EscalateTimersAgain | sippy/uac_state_trying.go:71-76 | the object does what `UaSpec.EscalateAgain` says: the no-progress timer gives way to the expiry timer |
| UserAgents.UserAgent.UacTryingRecvResponse | sippy/uac_state_trying.go:50-246 | the object does what `UaSpec.UacTryingResponse` says: every response to the INVITE: timers, PRACK, ringing, answer, late offer, redirect, failure |
| UserAgents.UserAgent.UacTryingRecvEvent | sippy/uac_state_trying.go:248-270 | the object does what `UaSpec.UacTryingEvent` says: an end cancels the call and all setup timers |
| UserAgents.UserAgent.UacRingingRecvResponse | sippy/uac_state_ringing.go:50-213 | the object does what `UaSpec.UacRingingResponse` says: every response after the first provisional one |
| UserAgents.UserAgent.UacRingingRecvEvent | sippy/uac_state_ringing.go:215-233 | the object does what `UaSpec.UacRingingEvent` says: an end cancels the call |
| UserAgents.UserAgent.UacCancellingRecvResponse | sippy/uac_state_cancelling.go:66-113 | the object does what `UaSpec.UacCancellingResponse` says: a late 2xx is ended with BYE, any other final response ends the agent |
| UserAgents.UserAgent.ConnectedRecvRequest | sippy/ua_state_connected.go:60-132 | the object does what `UaSpec.ConnectedRequest` says: REFER, re-INVITE, BYE, INFO, OPTIONS and UPDATE in an established call |
| UserAgents.UserAgent.ConnectedRecvEvent | sippy/ua_state_connected.go:134-264 | the object does what `UaSpec.ConnectedEvent` says: ends, updates, INFO and the answer a pending ACK waits for |
| UserAgents.UserAgent.OnDeactivate | sippy/ua_state_connected.go:266-275 | the object does what `UaSpec.Deactivate` says: a pending ACK is sent and the expiry timer stopped |
| UserAgents.UserAgent.UacUpdatingRecvRequest | sippy/uac_state_updating.go:53-70 | the object does what `UaSpec.UacUpdatingRequest` says: 491 to a crossing INVITE; BYE cancels the re-INVITE and ends the call |
| UserAgents.UserAgent.UacUpdatingRecvResponse | sippy/uac_state_updating.go:72-166 | the object does what `UaSpec.UacUpdatingResponse` says: answers to a re-INVITE; 408 and 481 end the call |
| UserAgents.UserAgent.UacUpdatingRecvEvent | sippy/uac_state_updating.go:168-188 | the object does what `UaSpec.UacUpdatingEvent` says: an end cancels the re-INVITE and sends BYE |
| UserAgents.UserAgent.UasIdleRecvRequest | sippy/uas_state_idle.go:51-138 | the object does what `UaSpec.UasIdleRequest` says: intake of an INVITE and choice of its first timer |
| UserAgents.UserAgent.UasTryingRecvEvent | sippy/uas_state_trying.go:49-130 | the object does what `UaSpec.UasTryingEvent` says: the first response to the INVITE, for each kind of event |
| UserAgents.UserAgent.UasRingingRecvEvent | sippy/uas_state_ringing.go:50-118 | the object does what `UaSpec.UasRingingEvent` says: later responses to the INVITE |
| UserAgents.UserAgent.UasRingingRecvRequest | sippy/uas_state_ringing.go:120-142 | the object does what `UaSpec.UasRingingRequest` says: a BYE while ringing ends the call and leaves the INVITE unanswered |
| UserAgents.UserAgent.RingingRelRecvEvent | sippy/uas_state_ringing_rel.go:53-83 | the object does what `UaSpec.RingingRelEvent` says: ring, connect and update events are held back until the PRACK |
| UserAgents.UserAgent.PreConnectRecvRequest | sippy/uas_state_preconnect.go:101-134 | the object does what `UaSpec.PreConnectRequest` says: requests while the ACK is awaited |
| UserAgents.UserAgent.PreConnectRecvEvent | sippy/uas_state_preconnect.go:55-153 | the object does what `UaSpec.PreConnectEvent` says: an update waits for the ACK, an end sends BYE or REFER |
| UserAgents.UserAgent.UasUpdatingRecvRequest | sippy/uas_state_updating.go:51-84 | the object does what `UaSpec.UasUpdatingRequest` says: requests while a re-INVITE waits for its answer |
| UserAgents.UserAgent.UasUpdatingRecvEvent | sippy/uas_state_updating.go:86-146 | the object does what `UaSpec.UasUpdatingEvent` says: answers to a re-INVITE; a failure of it does not end the call |
| UserAgents.UserAgent.DisconnectedRecvRequest | sippy/ua_state_disconnected.go:55-64 | the object does what `UaSpec.DisconnectedRequest` says: 200 to a BYE, 500 to anything else |
| UaSpec.SetConnectTs | sippy/ua.go:1062-1070 | the connect time is set once and never after the disconnect time |
| UaSpec.SetDisconnectTs | sippy/ua.go:819-825 | the disconnect time is never before the connect time |
| UaHandlers.RequestOk | sippy/ua.go:167-233 | for every state and request: allowed next state and role, at most the right callback, timers and time stamps, events only appended with fresh numbers |
| UaHandlers.ResponseOk | sippy/ua.go:235-265 | the same for every state and response |
| UaHandlers.EventOk | sippy/ua.go:289-310 | the same for every state and controller event |
| UaRuns.StepKeeps | sippy/ua.go:167-378 | every input of an agent keeps its invariant, moves the phase only forward, replaces setup timers only by later ones, loses no event, and calls an ending callback exactly when it leaves the live states or a CANCEL is late |
| UaRuns.NextEventStep | sippy/ua.go:368-378 | a turn of the emission loop hands over exactly the first waiting event and loses none |
| UaRuns.EveryRun | sippy/ua.go:357-378 | in every run events are numbered in strictly increasing order, roles fit, and no call ends before it was answered |
| UaRuns.RunKeeps | sippy/cc_events.go:49-74 | in every run the events handed over and waiting extend those of any earlier moment: none is lost, overtaken or delivered twice |
| UaRuns.SetupTimersEscalate | sippy/uac_state_idle.go:132-149 | in every run at most one setup timer is armed, and it is only replaced in the order no-reply, no-progress, expiry by a strictly later deadline |
| UaRuns.PhasesOnlyAdvance | sippy/ua.go:344-355 | in every run that no CANCEL revives: setup, established, closing, dead, never back; Failed and Cancelling only from setup |
| UaRuns.ClosedStaysClosed | sippy/ua_state_dead.go:44-49 | a call that left its live states never comes back to them, in any run |
| UaRuns.EndCallbacks | sippy/uac_state_cancelling.go:66-113 | in every run the disconnect or failure callback is called once if the live states are left, plus once for each CANCEL that comes after that |
| UaRuns.LateCancelCallsTwice | sippy/uas_state_ringing.go:120-152 | a BYE while ringing, or a BYE or REFER during a re-INVITE, leaves the INVITE open, and a CANCEL that follows calls the disconnect callback again |
| UaReports.StepTells | sippy/uas_state_trying.go:80-126 | for every input: an answer is announced only for an established call, a disconnect only for one that ended, an end nobody ordered is announced, and only an answer, a 2xx or a PRACK with an answer waiting establishes a call |
| UaLaws.ResponseHeard | sippy/uac_state_trying.go:50-246 | every response to an INVITE, but one out of order, gives exactly one event with its code and body, and the state, messages and callbacks that its class asks for |
| UaLaws.ResponseRemembered | sippy/uac_state_ringing.go:100-150 | the last body heard, the ACK that waits, and the times of first ringing, answer and end |
| UaLaws.FinalStopsTimers | sippy/uac_state_trying.go:129-131 | a final response stops all setup timers |
| UaLaws.TimersGiveWay | sippy/uac_state_trying.go:58-76 | which setup timer a provisional response leaves, with its deadline |
| UaLaws.UpdateHeard | sippy/uac_state_updating.go:72-166 | every response to a re-INVITE: the events with code and body, and which failures end the call |
| UaLaws.LateAnswerHeard | sippy/uac_state_cancelling.go:66-113 | a 2xx to a cancelled INVITE is answered with BYE, any other final response ends the agent, and no event is created |
| UaLaws.OtherResponsesQuiet | sippy/ua.go:235-265 | a response in any other state does nothing |
| UaLaws.EventSpoken | sippy/uas_state_trying.go:49-130 | every event that is not held back gives the caller exactly one response with its code and body (0 standing for 180 or 500), if it has something to say, and takes the call where it belongs |
| UaLaws.EventRemembered | sippy/uas_state_ringing.go:50-118 | the body sent, the INVITE answered or not, the times, and the timers that are left |
| UaLaws.EventHeld | sippy/uas_state_ringing_rel.go:53-83 | an event that is held back changes only what is held |
| UaLaws.PrackLetsGo | sippy/uas_state_ringing_rel.go:85-112 | a held answer leaves with its code and body and the ACK is awaited, else a held ring leaves and the next PRACK is, else nothing leaves; a held update waits on |
| UaLaws.UpdateAnswerSpoken | sippy/uas_state_updating.go:86-146 | the answer to a re-INVITE carries code and body of the event; a failure ends nothing |
| UaLaws.ConnectedPassesOn | sippy/ua_state_connected.go:134-264 | every event in an established call: an end is passed on, an update sent on or answered at once, an awaited answer sent in the ACK |
| UaLaws.OthersPassOn | sippy/uas_state_preconnect.go:55-153 | the same while an ACK or the answer to a re-INVITE is awaited |
| UaLaws.CallingEnds | sippy/uac_state_trying.go:248-270 | an end of a call that goes out is a CANCEL and the end of its timers; any other event does nothing |
| UaLaws.AttemptBegins | sippy/uac_state_idle.go:54-164 | an attempt sends an INVITE with its body and starts the shortest timer that is on |
| UaLaws.CallBegins | sippy/uas_state_idle.go:51-138 | a first INVITE is tried, passed on as an attempt with its body, and starts the shortest timer that is on; 420 without a body for reliable responses |
| UaLaws.OldRequestRefused | sippy/ua.go:167-185 | a request that is not newer than the last one is answered with 500 and does nothing |
| UaLaws.RequestHandled | sippy/ua.go:167-233 | for every request in a call: what it is answered with, which event with which body it gives, what else is sent, and whether the call ends |
| UaLaws.AckConnects | sippy/uas_state_preconnect.go:159-193 | the ACK connects, and if it confirms the call is handed over with its body before anything else |
| UaLaws.AckThenUpdate | sippy/uas_state_preconnect.go:189-192 | an update that waited comes right after the ACK |
| UaLaws.CancelHeard | sippy/uas_state_trying.go:132-140 | a CANCEL ends the call, is handed over at once, and sends a BYE for a re-INVITE |
| UaLaws.HangupHeard | sippy/ua.go:312-322 | a disconnect tells the controller first and then does what a disconnect event does |
| UaLaws.TimeoutHeard | sippy/ua.go:324-337 | a setup timer disconnects the call, and no timer is left |
| UaLaws.DeadIsSilent | sippy/ua_state_dead.go:44-49 | a dead agent has no timers and no callbacks |
| UaLaws.AckIsLeftToUser | sippy/uac_state_trying.go:177-181 | the transaction is put into user-ACK mode if and only if the answer to an offer has to come with the ACK |
| UaLaws.CodeRemembered | sippy/uac_state_ringing.go:55-59 | the last code of the call |
| UaLaws.LoopHandsOver | sippy/ua.go:368-378 | the emission loop hands over all waiting events in order |
| CallControllers.CallController.RecvEventFromA | cmd/b2bua_simple/main.go:84-97 | the first attempt creates the callee's agent and every event of the caller's goes there; any other first event disconnects the caller |
| CallControllers.CallController.RecvEventFromO | cmd/b2bua_simple/main.go:98-100 | every event of the callee's agent goes to the caller's |
| Relay.ActKeepsInv | cmd/b2bua_simple/main.go:84-100 | every message, timer, emission and relayed event keeps the joint invariant of the two legs |
| Relay.EachEventPassedOn | cmd/b2bua_simple/main.go:84-100 | each event of a leg reaches the other leg, once and in turn; the first attempt makes that leg, any other first event is answered with a disconnect |
| Relay.CallerAnsweredAfterCallee | sippy/uas_state_trying.go:80-126 | in every run the caller's leg is established only after the callee's leg was handed a 2xx |
| RelayTransparency.AnswersAreHeard | sippy/uas_state_trying.go:100-126 | in every run a 2xx that answers the caller's INVITE has the code and the body of a 2xx that the callee's leg was handed before |
| RelayTransparency.NoAnswerLost | sippy/uas_state_ringing_rel.go:69-76 | in every run, once all events are dealt with, a call the callee answered is answered on the caller's leg or over there, or its answer is held until the PRACK |
| Relay.LeavingIsAnnounced | sippy/ua.go:235-265 | a leg that a message or timer makes leave its live states has a disconnect (or, going out, a failure or redirect) on its way to the controller |
| Relay.NoHalfOpenCall | cmd/b2bua_simple/main.go:84-100 | in every run, once all events are dealt with, both legs live or neither does, unless a stray failure was passed on |
| Relay.StraySeparates | sippy/ua_state_connected.go:134-183 | such a failure does separate them: one leg ends and the other lives on |
| HalfOpenCalls.HalfOpenCallHappens | sippy/uas_state_preconnect.go:159-193 | a run from the start that leaves nothing undone and ends with one leg connected and the other disconnected: an ACK is taken for the answer to a re-INVITE |
| ReliableProvisionals.AgentSends | sippy/uas_state_ringing_rel.go:53-83 | the answering agent sends a reliable provisional response only when none is unacknowledged, and then waits |
| ReliableProvisionals.PrackSends | sippy/uas_state_ringing_rel.go:85-112 | a PRACK lets at most one held response out, and the agent waits again if it was a provisional one |
| ReliableProvisionals.ResponsePracks | sippy/uac_state_ringing.go:64-95 | the calling agent sends a PRACK, for exactly the response's number, exactly when it is the first or the next |
| ReliableProvisionals.ActKeepsInv | sippy/server_transaction.go:297-332 | every step of both sides and of a network that loses, repeats and reorders keeps the joint invariant |
| ReliableProvisionals.ReliableAndInOrder | sippy/server_transaction.go:240-261 | in every run at most one numbered response is unacknowledged, and the caller acknowledges 1, 2, 3, ... without gaps, each once |
| ReliableProvisionals.NextInOrder | sippy/client_transaction.go:204-219 | a reliable provisional response that reaches the calling agent carries the next number: none is skipped or refused |
| ReliableProvisionals.EveryPrackMatches | sippy/uac_state_ringing.go:88-95 | in every run a PRACK on the network with the number in flight is the PRACK the server transaction waits for |
| ReliableProvisionals.HeldAnswerLeaves | sippy/uas_state_ringing_rel.go:85-112 | an answer held while a PRACK is awaited leaves with the next PRACK that is taken, with its code and body, whatever happened in between but an end, a pre-connect or another answer |
| ReliableProvisionals.SuccessWaitsExactly | sippy/uas_state_ringing_rel.go:53-83 | while an offer or answer is unacknowledged a 2xx leaves if and only if it comes as a pre-connect event |
| ReliableProvisionals.RingKeptExactly | sippy/uas_state_ringing_rel.go:55-63 | a ring event during the wait is kept if and only if its code is over 100 |
| ReliableProvisionals.WaitsForNothingExactly | sippy/uas_state_ringing_rel.go:64-67 | after a PRACK a ring event makes the agent wait, with a reliable response sent if and only if its code is between 100 and 200 |
| ReliableProvisionals.FreedExactly | sippy/uas_state_ringing_rel.go:53-83 | an event gets a response out of a waiting agent if and only if it is a pre-connect, an end, or a connect with no offer or answer unacknowledged; any other leaves it waiting |
| ReliableProvisionals.LateTryingSticks | sippy/uas_state_ringing_rel.go:64-67 | after a PRACK, a ring event with code 100 makes the agent wait for a PRACK while its transaction waits for none |
| ReliableProvisionals.WaitsForGood | sippy/uas_state_ringing_rel.go:53-112 | from there on, in every run of PRACKs, events that do not free it, and anything the calling side and the network do, no response is sent and the wait does not end |
| Routing.HopsVisited | sippy/ua.go:589-626 | one computation, for any mix of loose and strict routers: the request visits the outbound proxy, the recorded routers in order, then the target |
| Routing.HopsInOrder | sippy/ua.go:599-609 | hop by hop: the outbound proxy first, then element i of the Record-Route list counted from its end for a response and from its beginning for a request, then the target |
| Routing.AddressOf | sippy/ua.go:617-624 | a URL without a port means port 5060 of its host |
| Routing.DialogVisits | sippy/ua.go:589-626 | over any sequence of responses: the next request visits the recorded routers and the last Contact if and only if no response since that Contact left its strict router in the place of the target |
| Routing.DialogVisitsTarget | sippy/ua.go:607-616 | behind an outbound proxy, and after any response with a Contact, it always does |
| Routing.ContactForgotten | sippy/ua.go:614-618 | a provisional response with a Contact and a 2xx without one, through a strict router: that router is visited twice and the Contact never |
| Routing.FirstPrackAgreesExactly | sippy/uac_state_trying.go:98-111 | the PRACK for the first reliable response goes where the INVITE went, which is where the dialog goes if and only if there is no recorded route, no new target and no other address |
| Routing.AckAgreesWithContact | sippy/client_transaction.go:273-338 | with a Contact in the 2xx, after any responses before it, the ACK and the next request of the dialog have the same Request-URI, routes and destination, and visit the recorded routers and that Contact |
| Routing.AckAgreesExactly | sippy/client_transaction.go:273-338 | without one, after any responses before it, they agree if and only if the target is still that of the INVITE, the first router is loose, and without routes the INVITE went straight to its target |
| Routing.AckLosesTarget | sippy/client_transaction.go:301-312 | behind a strict router an ACK to a 2xx without a Contact visits the routers and not the callee |
| Routing.RecordedRoutes | sippy/ua.go:599-606 | the loop fills in the recorded routes, reversed or not |
| Routing.Dialog.UpdateRouting | sippy/ua.go:589-626 | target, route set and address after a response |
| Routing.Dialog.GenRequest | sippy/ua.go:380-394 | a request goes to the outbound proxy or to the address of the dialog |
| Routing.Dialog.Follow | sippy/uac_state_trying.go:108-111 | after any sequence of responses the object sends what `AfterReplies` gives |
| Routing.Dialog.PrepTr | sippy/ua.go:268-287 | a transaction begun in an established dialog is told the route of the dialog for its ACK |
| Routing.Dialog.AcceptAnswer | sippy/client_transaction.go:249-338 | a 2xx with a Contact to the first INVITE: the ACK and every later request go the same way |
| Routing.Dialog.Reinvite | sippy/client_transaction.go:320-322 | a re-INVITE, the ACK to any 2xx for it and every other request of the dialog go the same way |
| Routing.AckSender.RouteAck | sippy/client_transaction.go:273-338 | Request-URI, routes and destination of the ACK to a 2xx, from the response or from the dialog |
| AddressLists.CreateSipAddressHFs | sippy/headers/sip_address_hf.go:57-91 | the rescanning loop terminates and equals one pass with running counters |
| AddressLists.JoinGivesBack | sippy/headers/sip_address_hf.go:57-91 | the pieces joined with commas are the text, up to one comma at the end |
| AddressLists.PiecesAreCutRight | sippy/headers/sip_address_hf.go:57-91 | every piece ends at the first comma where brackets and quotes balance |
| AddressLists.CutsExactly | sippy/headers/sip_address_hf.go:68-79 | a comma cuts if and only if there is no bracket or quote before it in the piece, or as many closing as opening brackets, at least one, and an even number of quotes |
| AddressLists.SplitIsUnique | sippy/headers/sip_address_hf.go:57-91 | a list of pieces with these two properties is the split |
| Text.LinesOfPrint | sippy/sdp_body.go:64-69 | printed header lines are found again, names and values unchanged |
| Text.FieldsOfJoin | sippy/sdp/sdp_media.go:42-64 | words printed with blanks between them are found again |
| Text.ParseOfFormat | sippy/sdp/sdp_origin.go:59-77 | a 64-bit version number printed is parsed back |
| Text.ParsedLinesAreClean | sippy/sdp_body.go:64-69 | the values of parsed lines have no line end in them and no blank at their end |
| Text.SignedNumbers | sippy/sdp/sdp_origin.go:59-77 | a number may have a sign and has to fit 64 bits |
| Text.TrimsExactly | sippy/sdp_body.go:64-69 | trimming takes all blanks from both ends and nothing else |
| Text.CapitalsRead | sippy/sdp_body.go:70-71 | a header name may be a capital letter |
| SdpSpec.ConnRoundTrip | sippy/sdp/sdp_connecton.go:41-55 | a connection printed is parsed back |
| SdpSpec.MediaRoundTrip | sippy/sdp/sdp_media.go:42-64 | a media line printed is parsed back |
| SdpSpec.OriginRoundTrip | sippy/sdp/sdp_origin.go:59-77 | an origin printed is parsed back |
| SdpProperties.ParsedIsCanonical | sippy/sdp_body.go:56-141 | whatever parses has all mandatory headers, a connection in every section and printable values |
| SdpProperties.BuildOfEmit | sippy/sdp_body.go:171-224 | the lines printed for a body parse to that body, with the connection hoisted or not, for any number of sections |
| SdpProperties.ParseOfPrinted | sippy/sdp_body.go:56-224 | for every text that parses, parsing what is printed for it gives the same body |
| SdpProperties.ConnectionsKept | sippy/sdp_body.go:171-224 | in the printed lines every section has its own connection in force, as section 5.7 of RFC 4566 reads them |
| SdpReading.TextRead | sippy/sdp_body.go:56-141 | for every text: its lines are a session part and media sections, whether it is accepted, and what every header is then kept as |
| SdpReading.BodyRead | sippy/sdp_body.go:70-125 | every session header v s i u e p b t r z k is kept as the last line with that letter says, the origin and the connection likewise, each section likewise, attributes in order, nothing else |
| SdpReading.AcceptedExactly | sippy/sdp_body.go:126-141 | a text is accepted if and only if its origins parse, v, o, s and t are there, and every section has a media line and a connection of its own or of the session |
| SdpReading.RefusedFor | sippy/sdp_body.go:126-141 | the error names the first thing wrong, in a fixed order |
| SdpReading.WordsMean | sippy/sdp/sdp_connecton.go:41-55 | three words make a connection, six an origin, three and its formats a media line, in this order |
| SdpReading.SessionInOrder | sippy/sdp_body.go:143-224 | the session part is printed in the order v o s i u e p c b t r z k a, each but the last once |
| SdpReading.SectionInOrder | sippy/sdp/sdp_media_description.go:64-97 | a section is printed in the order m i c b k a |
| SdpReading.ConnectionsPrinted | sippy/sdp_body.go:180-215 | one connection is printed before the sections if there is one section or the first two share it, and then only sections with another one have a line |
| SdpObjects.SdpMediaDescription.AddHeader | sippy/sdp/sdp_media_description.go:99-114 | one header line changes one field |
| SdpObjects.SdpMediaDescription.String | sippy/sdp/sdp_media_description.go:74-83 | the lines of the section in order |
| SdpObjects.SdpMediaDescription.LocalStr | sippy/sdp/sdp_media_description.go:85-97 | the same, without the connection line if asked |
| SdpObjects.SdpMediaDescription.SanityCheck | sippy/sdp/sdp_media_description.go:192-200 | media and connection lines are mandatory |
| SdpObjects.SdpParser.AddLine | sippy/sdp_body.go:70-115 | what one line of the text adds to the body under construction |
| SdpObjects.SdpParser.InheritConn | sippy/sdp_body.go:116-125 | sections without a connection get the session's |
| SdpObjects.ParseSdpBody | sippy/sdp_body.go:56-141 | the object that is built, or the error, is the one the line-by-line definition gives |
| SdpObjects.SdpBody.String | sippy/sdp_body.go:171-224 | the text is the printed form of the body |
| SdpObjects.SdpBody.LocalStr | sippy/sdp_body.go:226-280 | for every address the text is the same as String gives |

## Left out

- `Timeout` objects: a timer is a deadline that is set or not, with a ghost account of the objects behind it.
  Goroutines, channels and a firing that is already under way when its timer is cancelled are not modelled.
- Locks: every handler is one atomic step and the tables are changed atomically; paths that return with a lock held are
  not distinguished.
- Message text: header parsing is assumed to succeed, so the branches for header bodies that cannot be parsed are left
  out; so are Via rewriting, NAT traversal and the compact form.
- SDP-change callbacks: treated as absent. A callback that re-enters the agent while it changes state is not modelled.
- Emission in the middle of a handler: the controller is called from inside the emission loop; the model hands events to
  an outbox and lets the other leg act on them in any order that keeps each leg's order. Other inputs come when all
  events are dealt with.
- Cancel callback: it is taken to belong to the state that took the INVITE in, also if the controller changed the state
  before the request handler returned.
- Contact lists: a redirect carries its code and body; its addresses, reason phrases and warnings are not modelled.
- Credit timers, keep-alive, authentication challenges and retries, extra headers and `Reason` headers.
- Global event counter: agents that are not joined see it move by a separate input.
- Connection callback: it may be called twice for one call (`sippy/uas_state_preconnect.go:171`, `183`), and no claim is
  made about how often.
- `rtid2tid` entries that outlive their transaction: only the direction from a live transaction to its entry is proved.
- Clock reads: `now` is a parameter, and setup deadlines are computed from it; the time a timer really fires at is not
  bounded from below.
- ReliableProvisionals.ReliableAndInOrder: the callbacks for a missing PRACK, a missing ACK and a CANCEL are inputs that
  may come at any time, which allows more runs than the code has. Events that announce a final outcome are taken to
  carry no provisional code, as those of the other leg do.
- Sharing of one parsed connection among sections: a connection is a value, so changing the address of one section
  through a shared pointer is not modelled. `SetFormats` and `optimize_a` are left out.
- Letter case beyond names: `strings.ToLower` is exact for names that become ASCII letters, which are the only ones the
  parser looks at. Bytes that are not valid UTF-8 are not modelled.
- Default port: 5060 stands for the configured one.
- The 300 ns timer of the cancelling state and the removal of dead agents: the timer fires at any time, and clean-up of
  the consumer table is not modelled.
- Easy members: accessors, copies, digest computation, registration, the stateful proxy, RADIUS and RTP proxy clients.
