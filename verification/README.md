# OpenR2: the MFC/R2 stack in Dafny

A model of the call protocol, the timer scheduler, the ring queue and the tone engine of OpenR2, and proofs of what
they promise.

- **The protocol.** `Signals.dfy` holds the line signals, the tone tables and the settings of the variants.
  `Protocol.dfy` gives every handler of the protocol file as a function on channel values; user callbacks are events
  appended to a log, and a run is a sequence of line samples, tone samples, timer expiries and user requests.
  `RunInvariants.dfy`, `LineSignals.dfy` and `RunTheorems.dfy` prove what holds over every run of one channel, whatever the far
  end, the user and the tone table do.
- **Reference tables.** `LineTable.dfy`, `RegisterTable.dfy`, `CalleeTable.dfy` and `RequestTable.dfy` say once more what a
  channel does, apart from the handlers: with bits, rows of tones, purposes of timers and requests of the user, and
  literal states, causes and signals. The handlers are proved to do exactly that, in every field of the channel.
  `VariantTable.dfy` is what each tone means in each variant, and `Repeats.dfy` a far end that asks for digits again.
- **Two ends of a line.** `TwoEnds.dfy` joins two channels, each sampling what the other transmits now, so signals can
  be missed and seen twice. `Glare.dfy`, `Teardown.dfy`, `Setup.dfy` and `SetupTheorems.dfy` prove that two ends which seize
  at once, clear an answered call, or set one up by compelled register signalling meet no protocol error in any
  interleaving and get where they are going, and which moves and settings this depends on, exactly. Each rests on one
  invariant over the pair that every admitted move keeps, and on a distance that moves with an effect strictly lower and
  that can always be lowered. `LateGlare.dfy` and `Insisting.dfy` are glare outside the timing that resolves it; `Stopping.dfy` is
  a callee whose user stops the digits, `ShortNumbers.dfy` a number that ends in a timeout.
- **Passes and slots of the scheduler.** `Guards.dfy` says which steps leave a waiting state without its timer when the slots
  run out. `Passes.dfy` says which lists of timers due at once keep the run invariant, and
  `LatePasses.dfy` ties them to the timer array and gives runs and clocks for two lists that break it.
- **The channel object.** `Channel.dfy` is the code in its own form: a class with the fields of the channel struct, over
  the timer array of `Scheduler.dfy`. Every method is proved to take the value of the object where the function of
  the same name says; `Perform` does so for every step but an expiry and `HandleTimers` for a pass of the scheduler. `Drive`
  puts any sequence of both together: it takes the object where the model goes, and gives it the run theorems.
- **The queue.** `Queue.dfy` is the ring buffer over an array, with its pointer that may rest one past the end, refining
  a sequence of bytes and a FIFO of messages. `QueueSharing.dfy` is the same buffer under one reader and one writer, interleaved at
  single bytes.
- **The engine.** `Alaw.dfy`, `Goertzel.dfy`, `MfReceiver.dfy`, `DtmfReceiver.dfy`, `ToneGen.dfy`,
  `MfSender.dfy` and `DtmfSender.dfy`: the A-law codec, and sample loops over arrays proved against functions of the sample sequence.
  `Keypad.dfy` and `Registers.dfy` hold the frequencies of the keys and of the register signals, to which detectors and
  generators are tied.

`dafny verify dfyconfig.toml` checks everything.

## What the proofs found

Each of these is a lemma of the project with the input that shows it, or an exact condition in a contract. The model
follows the code in all of them.

- Two timers due in one pass are called back from copies, so a callback that ends the call does not stop the ones behind
  it. A call-down before an answer timeout leaves the channel disconnected with no call, refusing to make another
  (`LatePassStrandsChannel`); a seize timeout before a call-down closes one call twice (`LatePassClosesTwice`). Both are given
  as a run of a new channel and the deadlines of the timers. A pass keeps the run invariant if and only if it is not
  `Harmful`, a condition on the list of due timers and the state before the pass (`PassKeepsInvExactly`); one with a single
  timer due never is.
- Timers with one deadline are called in the order of addition unless the later one carries 1000000 microseconds and the
  earlier one zero (`TieRule`, `TieReversed`).
- Glare is resolved however often the users disconnect, as long as no seize timer expires and no call-down timer expires
  at an end that has not read the seize the far end still shows (`GlareIsSafe`); that condition is exact
  (`HeedingExactly`). An end that misses the seize, because the other has cleared already, waits in vain: it meets a protocol
  error if and only if its seize timer expires, and until then its user can clear it by disconnecting twice
  (`LateIsReached`, `LateFaultsExactly`, `LateIsStuck`).
- An end that disconnects twice before its seize is answered, and is given back by its call-down timer, causes a protocol
  error at a far end that has seen the collision (`InsistingCausesFault`). That takes a call-down time set shorter than the seize time, or a pass of
  the scheduler could not find it due alone (`CallDownFirstExactly`, `ShorterCallDownExactly`); no variant starts with such
  times (`VariantsSeizeFirst`).
- A far end that repeats its acceptance tone fills the slots of the scheduler with answer timers, and a drop after that waits
  with no call-down timer (`FullSlotsLoseGuard`). Which steps lose the guard of a wait is exact (`GuardKeptExactly`).
- A forced release has the bits of a seize. An end whose call-down timer has expired takes it for an incoming call
  (`ForcedReleaseAfterCallDown`), and a release that replaces one already sampled is a protocol error
  (`ChangeOfReleaseFails`). The condition under which neither happens is exact (`InTimeExactly`).
- A second disconnect request while the first waits for the seize ack clears the line at once, against section
  3.2.3.2 of ITU-T Q.422; without one the seize is held (`SeizeGivenUpExactly`, `SeizeIsHeld`).
- With get_ani_first and a max_ani of zero or less the DNIS is cut to its first digit, unless that is all of it
  (`OfferIsRight` in `SetupIsSafe`).
- With skip_category and immediate_accept a callee that is done with the number at its first digit accepts in a group in
  which the silence that follows is a protocol error. No other setting within the premises fails (`SetupSafeExactly`,
  `AcceptingTooSoonFails`).
- With get_ani_first a DNIS callback that wants no more than the first digit is asked for another after the ANI
  (`StoppedNumber`).
- With immediate_accept and get_ani_first or skip_category, a number shorter than max_dnis in a variant without an
  end-of-DNIS tone is accepted on the timeout, which ends in a protocol error (`AcceptingAtTimeoutFails`).
- With skip_category the user is offered a collect call, in Brazil one from a pay phone (`SkippedCategory`).
- A special acceptance is heard as one without charge (`AcceptanceHeard`). In Mexico busy and unallocated cannot be told
  apart, and the busy tone of Colombia is heard as an acceptance (`RejectionHeard`).
- The comment before the DTMF debouncer lists ABB and CDD as patterns that start a digit; a third block is needed
  (`CommentedPatterns`, `TwoEstablish`).
- Single-byte reads never drain a queue whose bulk writer rests at its end once the reader has moved (`ByteReadRight`,
  `ByteReaderNeverDone`). The DTMF sender mixes the two: after a put that ends exactly at the end of the buffer it sends the
  buffer round and round for ever (`Sender.Put`, `Sender.Tx`), or, if nothing in the buffer makes a sample, does not return
  (`NothingToResend`). queue_empty is wrong with the writer at zero and the reader at the
  end (`IsEmpty`). queue_write_msg compares a free space cast to sixteen bits, so it can refuse a message for which there is
  room (`WriteMsg`).
- tone_gen does not end for a repeating generator whose first two sections are empty (`StuckExactly`).
- The MF receiver returns a digit only from a call in which a block ended (`Receiver.Rx`).

## Model

| member | source | states |
|---|---|---|
| `RunInvariants.StepKeepsInv` | src/r2proto.c:1160-1533 | the invariant behind the run theorems is kept by every step: line sample, tone sample, timer, user request, reset and alarm, in every state |
| `RunInvariants.RunKeepsInv` | src/r2proto.c:726-754 | it holds after every sequence of steps of a new channel |
| `RunTheorems.EventsInOrder` | src/r2proto.c:1349-1384 | over every run: an incoming call is offered at most once, never after its release was reported, and accepted only after the offer; an outgoing call is answered at most once, only after on_call_accepted (also when the answer is seen before the accept tone), never after the user hung up, be it inside that callback; ends and releases belong to a call, and calls do not overlap |
| `RunTheorems.FlagMeaning` | src/r2proto.c:73-82 | the flags of the invariant say which events the call in progress has had |
| `RunTheorems.PhaseMeaning` | src/r2proto.c:925-971 | the phase of the invariant is the last call start that has no end behind it |
| `RunTheorems.CallConservation` | src/r2proto.c:726-795 | over every run: call_state is IDLE exactly when direction is STOPPED and exactly when r2_state is INIT, IDLE or BLOCKED; no call in alarm; calls started = calls closed by on_call_end, on_protocol_error or a reset, plus one if a call is active |
| `RunTheorems.LawfulCallsBalance` | src/r2proto.c:1074-1079 | a history in lawful order closes every call but the last one exactly once |
| `Guards.GuardKeptExactly` | src/r2chan.c:534-540 | from a channel whose wait, if it is in one, has the timer of its purpose running, a step leaves that so if and only if at its request there was a free slot or such a timer was running already |
| `Guards.GuardsKeptExactly` | src/r2chan.c:534-540 | over every run: every wait in it is guarded if and only if every step had such a slot or timer for the wait it led to |
| `Guards.WaitsAreGuarded` | src/r2proto.c:2720-2729 | after a run all of whose steps had one, state by state: the seize timer runs while the seize ack is awaited, the call-down timer after clear forward, the persist timer after a collision was cleared, the double-answer timer between its two answers, the answer timer after acceptance, the safety timer while the caller has no more digits to send; and if no request at all found the slots full it is the one its timer_ids field names |
| `Guards.SpareSlotsGuard` | src/r2chan.c:534-540 | a run that never has more than eight of the ten slots in use guards every wait |
| `Guards.FullSlotsLoseGuard` | src/r2proto.c:2218-2225 | a run of a new channel that loses its guard: ten acceptance tones fill the slots with answer timers, and the drop that follows waits for the far end with no call-down timer, whichever of those expires |
| `RunTheorems.CancelRemovesOwnTimer` | src/r2chan.c:573-612 | over every run: cancelling through a timer_ids field removes the timer scheduled through that field or, if it is stale, zero or -1, nothing; id reuse after the reset does not matter |
| `LineSignals.StepAgrees` | src/r2proto.c:357-377 | every step but an ack by hand, and a seize that waits for one, keeps the transmitted signal the one the r2_state prescribes |
| `RunTheorems.SignalAgreesWithState` | src/r2proto.c:1580-1629 | over every run with automatic seize ack and no reset acknowledgement by hand: outside alarm and INIT cas_tx_signal is the one the r2_state prescribes |
| `LineSignals.StepAgreesByHand` | src/r2proto.c:2907-2915 | with or without automatic seize ack every step, an ack of an incoming call among them, keeps the transmitted signal the one the r2_state prescribes, an incoming call showing IDLE before its ack and SEIZE ACK after it |
| `RunTheorems.SignalAgreesByHand` | src/r2proto.c:2907-2915 | and so over every run that acknowledges nothing but incoming calls; a call dropped by the far end before its ack shows IDLE until it is over |
| `LineSignals.AckOutOfTurnExactly` | src/r2proto.c:2907-2915 | an ack at any other time leaves the agreement if and only if the channel is in alarm, in INIT, or an incoming call the far end has cleared |
| `RunTheorems.SeizeGivenUpExactly` | src/r2proto.c:2710-2719 | a channel waiting for the seize ack stops transmitting SEIZE exactly on these steps: new bits other than the far seize or, with no disconnect pending, the ack; the seize timeout; a reset, an alarm or a manual ack; a second disconnect while the first is pending |
| `RunTheorems.SeizeHeldToTheEnd` | src/r2proto.c:1255-1317 | over every run, from any moment at which a call waits for its ack: SEIZE is on the line at every step up to the one that ends the wait, and after that one exactly as SeizeGivenUpExactly says |
| `RunTheorems.SeizeIsHeld` | src/r2proto.c:2710-2719 | over every run with at most one disconnect per pending state and no reset or alarm, the seize is on the line until new bits are seen or the seize timer expires, as section 3.2.3.2 of ITU-T Q.422 asks |
| `LineTable.LineFollowsTable` | src/r2proto.c:1201-1533 | for every state and all bits the line can show: the state that follows, what the user is told, the call state, the signal sent and the timers are those of a table written by the bits, as in ITU-T Q.422, and apart from the handler; nothing else changes |
| `LineTable.ReleaseIsTold` | src/r2proto.c:1347-1440 | a release before the answer, or after it without metering, tells the user at once and nothing else: of a normal clearing for both bits 1, of a forced release for both bits 0 |
| `LineTable.LongPulseIsRelease` | src/r2proto.c:1079-1090 | with metering nothing is told until the pulse timer expires, and then the cause of the bits that were read |
| `LineTable.ShortPulseIsBilled` | src/r2proto.c:1483-1499 | with metering the same bits followed by those of an answer are a billing pulse and nothing else, and the timer is off |
| `RegisterTable.CallerFollowsTable` | src/r2proto.c:2228-2341 | when the tone of the far end is gone a caller does what the row of that tone in the table of its group says: sends the digit with the index written there, the next digit of its number or its category, takes the call for accepted or rejected with the cause written there, or finds a fault |
| `RegisterTable.CallerStarts` | src/r2proto.c:1255-1290 | when its seize is acknowledged the caller sends its first digit in group I, and the user is told |
| `RegisterTable.NeedsSilence` | src/r2proto.c:2399-2405 | one tone after another without silence between them is a fault, in either direction |
| `CalleeTable.CalleeFollowsTable` | src/r2proto.c:1794-2022 | a tone is taken for what a called channel asked for, kept, and answered with what a table of settings and digits so far says is asked for next, or with the offer of the call |
| `CalleeTable.SilenceFollowsTable` | src/r2proto.c:2036-2099 | when the caller falls silent so does the callee; an acceptance ends with the answer delay running, a rejection with no timer running, anything out of place in a fault |
| `RequestTable.TimerFollowsTable` | src/r2proto.c:1739-1781 | a timer that expires is gone, and does what a table by its purpose says: which fault, cause or event, and which signals and timers |
| `RequestTable.PlaceFollowsTable` | src/r2proto.c:2464-2564 | a call is placed only on an idle channel without alarm whose far end shows the idle bits, with the numbers that are numbers |
| `RequestTable.HangupFollowsTable` | src/r2proto.c:2660-2743 | a disconnect request by direction and state: the tone of the cause for a call that was offered, else a release or clear forward, the end of a call that the far end has cleared, or a seize that is held |
| `RequestTable.RejectionTone` | src/r2proto.c:2580-2621 | the tone for every cause, with congestion for those that have none |
| `RequestTable.AlarmFollowsTable` | src/r2proto.c:2917-2934 | an alarm is a fault of the call it meets; the bits read are forgotten and none are sent |
| `RequestTable.AlarmEndFollowsTable` | src/r2proto.c:2935-2945 | the end of an alarm resets the channel, to blocked if it was, and the bits on the line are read |
| `VariantTable.GroupAMeans` | src/r2proto.c:86-214 | what each tone of group A asks of a caller, tone by tone, in each of the ten variants |
| `VariantTable.GroupBMeans` | src/r2proto.c:86-214 | what each tone of group B decides |
| `VariantTable.GroupCMeans` | src/r2proto.c:142-186 | what each tone of group C asks, in Mexico |
| `VariantTable.CategoriesRead` | src/r2proto.c:1664-1685 | the category of each tone in each variant |
| `VariantTable.CategoriesSent` | src/r2proto.c:1845-1865 | the tone of each category in each variant |
| `VariantTable.Times` | src/r2proto.c:406-428 | the time of each timer; only Argentina has metering |
| `Repeats.WishesAreServed` | src/r2proto.c:1016-1060 | over every run in which the far end asks for the next digit, for one of the three before, or for all of them from the first, the caller has the digit asked for on the line, and its user is told nothing |
| `Repeats.NumberHeardAgain` | src/r2proto.c:2228-2248 | a far end that asks for the digit n-1, n-2 or n-3, or for all again, and then asks on hears the number from the digit with the index max(0, n-1), max(0, n-2), max(0, n-3) or 0 |
| `Repeats.PastTheEnd` | src/r2proto.c:1045-1059 | asked past its last digit the caller sends the tone for the end, or is silent with the safety timer running |
| `Repeats.DigitAskedInGroupC` | src/r2proto.c:2277-2295 | the request for a digit in group C is for the next one and leads back to group A |
| `Repeats.VariantsAskAgain` | src/r2proto.c:86-214 | in every variant the tones for these are distinct; Brazil alone has one for all digits |
| `Passes.PassKeepsInvExactly` | src/r2chan.c:270-305 | from the invariant, a pass with any list of due timers keeps it if and only if no answer, metering, persist, call-down or answer-delay callback comes after a callback that ends the call, other than a clearing of a collision that a later seize or safety timeout resets |
| `Passes.PassKeepsShapeExactly` | src/r2chan.c:270-305 | every callback of the pass leaves a channel of proper shape and lawful log if and only if no such callback at all comes after the end of the call |
| `LatePasses.PassTakes` | src/r2chan.c:286-298 | a pass of the timer array takes off the timers it calls back, all of them before the first callback, and no others |
| `LatePasses.OneDuePass` | src/r2chan.c:270-305 | a pass with one timer due is the timer step of the runs |
| `LatePasses.AcceptedAndDropped` | src/r2proto.c:2218-2225 | a run of a new channel to an accepted call that has been dropped: the answer timer and the call-down timer both run |
| `LatePasses.LatePassStrandsChannel` | src/r2chan.c:299-303 | after that run, for all clocks at which the two were added with the call-down due first and at which the pass comes after both: the call ends and is then reported disconnected, and the channel refuses every new call |
| `LatePasses.DroppedTwice` | src/r2proto.c:2710-2719 | a run of a new channel to a call dropped twice before its seize is answered: the seize timer and the call-down timer both run |
| `LatePasses.LatePassClosesTwice` | src/r2chan.c:299-303 | after that run, for all clocks at which a pass finds both due: a protocol error and then an end of call for the same call |
| `Glare.GlareIsSafe` | src/r2proto.c:1289-1336 | two idle ends that both seize, in every interleaving with disconnects at any time and any number of times, in which no seize timer expires and no call-down timer gives a channel back while the seize of the far end is on the line unread: no protocol error, exactly one on_call_end each, delivered when that end is idle again |
| `Glare.GlareRun` | src/r2proto.c:2708-2742 | the two-sided glare invariant is kept over every admitted run |
| `Glare.HeedingExactly` | src/r2proto.c:1452-1475 | that condition is exact: wherever such a run has got to, an expiry meets it if and only if it keeps the glare invariant, and if and only if neither it nor the next sample of its end is a protocol error or a call nobody placed |
| `Glare.GlareFaultsExactly` | src/r2proto.c:2450-2454 | wherever such a run has got to, any next move is itself a protocol error if and only if it is the expiry of a seize timer |
| `Glare.MovesDescend` | src/r2proto.c:1452-1475 | every such move, a repeated disconnect among them, leaves both r2_states alone or brings the pair strictly closer to both ends being idle, and none leads away |
| `Glare.GlareTakesTenChanges` | src/r2proto.c:1452-1475 | in a run of any length at most ten moves change an r2_state |
| `Glare.GlareConverges` | src/r2proto.c:2631-2648 | wherever such a run has got to, while an end is not idle some such move brings the pair strictly closer, so no collision gets stuck |
| `Glare.GlareClearsItself` | src/r2proto.c:2631-2648 | if besides each end holds its seize until the other has seen it, such a move is always a sample, an expiry, or the disconnect of a user who has been told of the collision or whose far end has cleared |
| `LateGlare.LateIsReached` | src/r2proto.c:2631-2648 | from a collision of any two idle ends, a run of three moves leads to an end that clears while the other has not sampled its seize |
| `LateGlare.LateFaultsExactly` | src/r2proto.c:2450-2454 | from such a pair any move at all keeps such a pair, and causes a protocol error if and only if it is the expiry of the seize timer of the unaware end; the end that cleared meets none |
| `LateGlare.LateRun` | src/r2proto.c:2450-2454 | over every run from such a pair: one protocol error if the seize timer expires in it and none otherwise, and each call is closed exactly once, when its end is idle |
| `LateGlare.LateIsStuck` | src/r2proto.c:2450-2454 | the unaware end goes on waiting until its seize timer expires or its user disconnects a second time, and no longer |
| `Insisting.CallDownFirstExactly` | src/r2chan.c:275-283 | an end that disconnects twice has its seize timer and a younger call-down timer in one array: some pass finds the call-down timer due alone if and only if its expiry is earlier by seconds, or in the same second with the seize timer a millisecond or more into it |
| `Insisting.ShorterCallDownExactly` | src/r2proto.c:2637-2648 | there are clocks for that if and only if the call-down time is set shorter than the seize time |
| `Insisting.VariantsSeizeFirst` | src/r2proto.c:408-421 | with the times every variant starts from a pass finds neither due, the seize timer alone, or both with the seize timer first |
| `Insisting.InsistingCausesFault` | src/r2proto.c:2717-2719 | when a pass does find it alone: the run from a collision, the two disconnects and that pass after which the end takes the seize of the far end for a call, and its ack is a protocol error there |
| `Teardown.TeardownIsSafe` | src/r2proto.c:2660-2743 | from a call answered at both ends, any interleaving of disconnects by either or both users, samples and call-down expiries: no protocol error, exactly one on_call_end per side, when it is idle again; forced releases and changes of release included as far as the forward end can read them |
| `Teardown.CauseReachesCaller` | src/r2proto.c:1402-1436 | the user of one end drops a conversation and the other end samples: its user is told of a forced release if and only if the cause was one, and of a normal clearing otherwise |
| `Teardown.CauseReachesMetered` | src/r2proto.c:1079-1090 | with metering the same is told when the pulse timer expires, and nothing before |
| `Teardown.TeardownRun` | src/r2proto.c:1338-1347 | the two-sided clearing invariant is kept over every admitted run |
| `Teardown.InTimeExactly` | src/r2proto.c:1452-1533 | the condition on moves is exact: a move meets it if and only if it keeps the clearing invariant, and if and only if the next sample of the forward end is neither a protocol error nor a call nobody placed |
| `Teardown.UnplacedCallIsFault` | src/r2proto.c:1207-1234 | such an unplaced call is acknowledged, and the acknowledgement is a protocol error at the other end |
| `Teardown.DistanceNeverGrows` | src/r2proto.c:1452-1475 | no admitted move leads away from both ends being idle |
| `Teardown.EffectiveDescends` | src/r2proto.c:1452-1475 | a sample or an expiry that changes a state or a signal brings the pair strictly closer, but for the one sample with which a cleared forward end reads a second release |
| `Teardown.TeardownTakesSevenEffects` | src/r2proto.c:1452-1475 | in a run of any length at most seven samples and expiries have such an effect |
| `Teardown.TeardownConverges` | src/r2proto.c:2623-2629 | while an end is not idle some admitted move brings the pair strictly closer; once both users have disconnected it is a sample or a timer |
| `Teardown.ForcedReleaseAfterCallDown` | src/r2proto.c:2623-2629 | a run of four moves from a conversation that is not in time: call-down expiry, then a forced release, starts an incoming call nobody placed |
| `Teardown.ChangeOfReleaseFails` | src/r2proto.c:1477-1501 | another: a forced release after the clear back has been sampled is a protocol error at a forward end that is not idle |
| `SetupTheorems.SetupIsSafe` | src/r2proto.c:1783-2027 | the whole compelled register signalling between two channels, in every interleaving with stuttering, category skipped or not, accepted at once or by the user: no protocol error at either end; the offer carries the first min(length, max_ani) ANI digits, the category tone of the caller and the first min(length, max(1, max_dnis)) DNIS digits, the latter if and only if the callee takes some ANI, does not ask for it first, or one digit is all there is or is wanted, and otherwise the first digit alone; the caller hears the decision of the callee and nothing before it; it is answered only if the callee answered, which needs an acceptance |
| `SetupTheorems.SetupSafeExactly` | src/r2proto.c:1687-1726 | every run of a setup is without protocol error if and only if the callee does not skip the category, accept at once and take the number to be complete at its first digit |
| `SetupTheorems.AcceptingTooSoonFails` | src/r2proto.c:2036-2099 | the run of five moves from the seize on that fails otherwise, for every such callee and every call |
| `Stopping.StoppedSetupIsSafe` | src/r2proto.c:1794-1843 | a callee whose DNIS callback wants no more digits from the n-th on: every run of the setup is a run with a lower max_dnis and a callback that wants them all, so it has no protocol error and offers the number promised for that limit |
| `Stopping.StoppedNumber` | src/r2proto.c:1815-1843 | which is min(length, max(1, min(max_dnis, n))) digits; with get_ani_first the answer to the first digit is not heeded and at least two are promised, unless max_dnis is at most one |
| `Stopping.StoppedSafeExactly` | src/r2proto.c:1687-1726 | with such a callback every run is without protocol error if and only if the callee does not accept too soon with that limit |
| `Stopping.StoppedTooSoonMeaning` | src/r2proto.c:1687-1726 | which it does if and only if it skips the category, accepts at once, and asks for the ANI first or is done with one digit by itself or by its user |
| `ShortNumbers.ShortNumberIsSafe` | src/r2proto.c:1739-1781 | a number shorter than max_dnis in a variant without an end-of-DNIS tone: in every interleaving in which the cycle timer of the callee expires only while the caller waits with no more digits, and the resume timer only after the caller has heard the request, there is no protocol error, and offer and verdict are those of a setup |
| `ShortNumbers.ShortReachesOffer` | src/r2proto.c:1739-1781 | before the offer some such move, the two expiries in their place, always brings the pair strictly closer to it |
| `ShortNumbers.AcceptingAtTimeoutFails` | src/r2proto.c:1778-1781 | why immediate accept with get_ani_first or skip_category is left out of this: the acceptance sent on the timeout is ended by no silence of the caller, hearing the line changes nothing, and its cycle timer ends it in a protocol error |
| `Setup.SetupStep` | src/r2proto.c:2386-2448 | every move admitted in a setup keeps the invariant that ties both ends to the numbers still to be sent |
| `Setup.SetupRun` | src/r2proto.c:2386-2448 | and so does every run |
| `Setup.DialledIsSeized` | src/r2proto.c:2464-2564 | openr2_proto_make_call on an idle line brings the pair into that invariant with the numbers given |
| `Setup.RequestIsRead` | src/r2proto.c:2228-2295 | every tone with which the callee asks is read by the caller as the request it stands for, and served with the item asked for |
| `Setup.CallerServes` | src/r2proto.c:1016-1060 | when both have gone silent the caller puts the next digit, end tone or category the callee asked for on the line |
| `Setup.CalleeAsksNext` | src/r2proto.c:1794-2027 | what the callee hears is stored where it was asked for, and it asks for the next item wanted, offers, or accepts at once |
| `Setup.CalleeHearsTheEnd` | src/r2proto.c:2036-2099 | after its decision tone was heard the callee is accepted with the answer delay running, or done with a rejected call |
| `Setup.CallerHearsDecision` | src/r2proto.c:2188-2321 | the caller tells its user the decision, answers if the answer was there already, and has turned off its engine |
| `SetupTheorems.SetupAdvances` | src/r2proto.c:2036-2099 | before the offer every admitted move changes nothing or strictly lowers a distance |
| `SetupTheorems.SetupReachesOffer` | src/r2proto.c:73-82 | before the offer an admitted move that lowers it always exists: the handshake cannot get stuck |
| `SetupTheorems.DecisionStays` | src/r2proto.c:2188-2321 | after the decision no admitted move leads away from the user of the caller being told |
| `SetupTheorems.StageZeroIsTold` | src/r2proto.c:2297-2321 | the distance used for this is zero if and only if the user of the caller has been told |
| `SetupTheorems.DecisionReachesUser` | src/r2proto.c:2188-2321 | and an admitted move that brings it strictly closer exists until the user is told |
| `SetupTheorems.VariantsUnambiguous` | src/r2proto.c:86-214 | the tone tables of all variants but China and Mexico meet the premises of the setup theorems, exactly; and those of all but Brazil, China and Mexico do with immediate accept |
| `SetupTheorems.CategorySurvives` | src/r2proto.c:1845-1865 | a category with a tone reads back as itself; an unknown one as national subscriber |
| `SetupTheorems.SkippedCategory` | src/r2proto.c:1719-1726 | a category that is skipped is offered as a collect call, in Brazil as a pay phone |
| `SetupTheorems.AcceptanceHeard` | src/r2proto.c:2174-2186 | an acceptance is heard as one; its mode survives exactly for calls with and without charge |
| `SetupTheorems.RejectionHeard` | src/r2proto.c:2580-2621 | a rejection is heard with the cause sent, except for the busy and unallocated tones Mexico shares and the busy tone of Colombia, exactly |
| `SetupTheorems.AnsweredIsConversation` | src/r2proto.c:1349-1362 | a setup in which the caller has seen the answer ends in the state from which clearing starts |
| `SetupTheorems.WholeCallIsSafe` | src/r2proto.c:2464-2743 | seize, register signalling, answer and clearing in sequence: no protocol error at either end |
| `Channels.Channel.constructor` | src/r2chan.c:69-200 | a new channel is the initial value of the runs |
| `Channels.Channel.Schedule` | src/r2chan.c:514-571 | the array scheduler does to the channel what the id table of the protocol model says, and reports a full array |
| `Channels.Channel.Cancel` | src/r2chan.c:573-600 | likewise for cancelling through a timer_ids field |
| `Channels.Channel.HandleTimers` | src/r2chan.c:270-305 | a pass with any number of timers due calls back, from copies, exactly the due ones in the order of the array, on a channel from which all of them were removed first, and keeps the run invariant if and only if it is not harmful |
| `Channels.Channel.MakeCall` | src/r2proto.c:2464-2564 | refused exactly in alarm, in a call or with the far end not idle; else SEIZE, the seize timer and the numbers that are numeric, cut to the buffer |
| `Channels.Channel.Perform` | src/r2chan.c:241-267 | the object does on every step other than an expiry what the step function of the runs says, which the tables above pin down, and keeps their invariant |
| `Channels.IsNumeric` | src/r2proto.c:2489-2521 | true exactly of strings of digits |
| `Channels.Channel.Drive` | src/r2chan.c:241-305 | any sequence of steps and passes on an object takes it where the step function and the callbacks of what each pass finds due take its value, and as long as no pass was harmful the run theorems hold of it: calls are conserved, and every event the user was told of was in its place |
| `Channels.PassKeepsInv` | src/r2chan.c:270-305 | a pass over the timer array keeps the invariant if and only if what is due is not harmful |
| `Scheduler.ExpiryIsDeadline` | src/r2chan.c:541-551 | the expiry written is the clock plus the interval exactly, although tv_usec may be 1000000 |
| `Scheduler.RealOrder` | src/r2chan.c:552-566 | the array is sorted by real deadline, with ties in order of addition but for one case |
| `Scheduler.TieRule` | src/r2chan.c:552-566 | a new entry goes behind its ties if and only if it does not carry 1000000 microseconds against a zero |
| `Scheduler.TieReversed` | src/r2chan.c:541-566 | an input on which two timers of one deadline are called in the reverse order |
| `Scheduler.DueExactly` | src/r2chan.c:275-283 | due exactly when past, or within a millisecond of it and the microseconds have not wrapped: all that is past due, nothing with 1 ms or more left |
| `Scheduler.WakesInTime` | src/r2chan.c:865-904 | sleeping for the time to the next event is off by less than a millisecond |
| `Scheduler.DueIsPrefix` | src/r2chan.c:275-298 | the due entries are a prefix of the array, the rest stays in order |
| `Scheduler.PassPartitions` | src/r2chan.c:275-298 | no entry is lost or doubled by a pass |
| `Scheduler.CancelNextDue` | src/r2chan.c:286-298 | cancelling the copies one by one removes exactly them |
| `Scheduler.PassTakesDue` | src/r2chan.c:286-298 | a pass takes from the live ids exactly the due ones |
| `Scheduler.RunsStayInOrder` | src/r2chan.c:514-612 | order, unique increasing ids and the bound hold after every sequence of adds, cancels, cancel-alls and passes |
| `Scheduler.PassAfterAnyRun` | src/r2chan.c:270-305 | after every such sequence a pass takes a prefix, in order of deadline, all past due and nothing with a millisecond left |
| `Scheduler.InsertedInOrder` | src/r2chan.c:552-566 | insertion keeps the order |
| `Scheduler.RemovedInOrder` | src/r2chan.c:573-600 | removal keeps the order |
| `Scheduler.CancelUndoesAdd` | src/r2chan.c:514-600 | cancelling the entry just inserted leaves the array as it was |
| `Scheduler.RemovedExactly` | src/r2chan.c:573-600 | cancelling takes away the entry with the id, and no other |
| `Scheduler.LiveInserted` | src/r2chan.c:552-566 | insertion adds one live id |
| `Scheduler.LiveRemoved` | src/r2chan.c:573-600 | cancelling removes that id and no other |
| `Scheduler.LiveSize` | src/r2chan.c:514-530 | live ids are as many as used slots |
| `Scheduler.TimerQueue.constructor` | src/r2chan.c:602-612 | no timers, as after cancel-all |
| `Scheduler.TimerQueue.AddTimer` | src/r2chan.c:514-571 | -1 and nothing changed when full; otherwise the next id, and the entry in its place |
| `Scheduler.TimerQueue.CancelTimer` | src/r2chan.c:573-600 | an id below one or unknown changes nothing; the field is zeroed exactly when an entry was removed |
| `Scheduler.TimerQueue.CancelAll` | src/r2chan.c:602-612 | no timers, and ids start again |
| `Scheduler.TimerQueue.CopyDue` | src/r2chan.c:275-283 | the first loop copies the due entries in order |
| `Scheduler.TimerQueue.TakeDue` | src/r2chan.c:275-298 | after two loops the due entries are returned and the others kept in order |
| `Scheduler.TimerQueue.TimeToNextEvent` | src/r2chan.c:865-904 | -1, zero or the milliseconds to the first entry |
| `Scheduler.TimerQueue.Schedule` | src/r2chan.c:514-571 | adding through a field, in the terms of the protocol model |
| `Scheduler.TimerQueue.Cancel` | src/r2chan.c:573-600 | cancelling through a field, in the terms of the protocol model |
| `Queue.TakeFront` | src/queue.c:153-184 | taking n bytes by either copying branch removes the front, wherever the buffer goes round |
| `Queue.PutBack` | src/queue.c:235-263 | putting bytes in appends them and touches no byte in the queue, wherever the buffer goes round |
| `Queue.ByteReadRight` | src/queue.c:190-213 | a single-byte read takes the first byte if and only if the writer does not rest at len with the reader on the last cell |
| `Queue.ByteReaderNeverDone` | src/queue.c:190-213 | from a writer resting at len single-byte reads never empty the queue |
| `Queue.ByteWrittenRight` | src/queue.c:269-297 | a single-byte write appends its byte |
| `Queue.WholeAppended` | src/queue.c:337-393 | framed sequences concatenate message by message |
| `Queue.FrameAppended` | src/queue.c:337-393 | a frame adds one message to the FIFO |
| `Queue.FirstMessage` | src/queue.c:311-334 | the first message stands behind its length |
| `Queue.RingQueue.constructor` | src/queue.c:396-408 | an empty queue of the capacity asked for |
| `Queue.RingQueue.IsEmpty` | src/queue.c:48-51 | right but for a writer at zero with the reader at len |
| `Queue.RingQueue.FreeSpace` | src/queue.c:54-62 | the bytes that fit |
| `Queue.RingQueue.Count` | src/queue.c:65-73 | the bytes there are |
| `Queue.RingQueue.Flush` | src/queue.c:76-79 | the queue is empty |
| `Queue.RingQueue.Peek` | src/queue.c:82-129 | the first bytes are copied, or none if atomic and short; the queue stays |
| `Queue.RingQueue.Read` | src/queue.c:132-187 | the first bytes are taken, as many as asked, or as there are, or none if atomic |
| `Queue.RingQueue.Write` | src/queue.c:216-266 | bytes are appended, all, or as many as fit, or none if atomic, and the writer comes to rest past the end exactly when they end there |
| `Queue.RingQueue.ReadByte` | src/queue.c:190-213 | -1 on an empty queue, else the first byte; the queue stays well-formed exactly outside the one failing position |
| `Queue.RingQueue.WriteByte` | src/queue.c:269-297 | one byte appended, or none |
| `Queue.RingQueue.TestMsg` | src/queue.c:300-308 | the length of the next message, also when its prefix is split |
| `Queue.RingQueue.ReadMsg` | src/queue.c:311-334 | the next message, or a prefix of it, is delivered and the whole of it removed |
| `Queue.RingQueue.WriteMsg` | src/queue.c:337-393 | a message is appended whole in every wrap position, or refused: exactly when the free space cast to sixteen bits is short |
| `QueueSharing.StepKeeps` | src/queue.c:132-187 | each step of a reader and a writer at the granularity of snapshot, byte copied and pointer published keeps the invariant |
| `QueueSharing.RunKeeps` | src/queue.c:216-266 | and so does every interleaving |
| `QueueSharing.SharingIsSafe` | src/queue.c:132-266 | in every interleaving the bytes read are a prefix of the bytes accepted, no unread byte is overwritten, and both sides stay in the buffer, however stale their view of the other pointer |
| `QueueSharing.WriteStarts` | src/queue.c:216-266 | a write takes all it is given, what fits by the pointer it sees, or nothing if atomic |
| `QueueSharing.ReadStarts` | src/queue.c:132-187 | a read takes what it asks for, what it sees there, or nothing if atomic |
| `QueueSharing.CallsGoOn` | src/queue.c:132-266 | exactly one step of a call under way can be taken, it brings the call one step closer to its end, and the other side neither delays nor changes it |
| `QueueSharing.RunConserves` | src/queue.c:132-266 | in every interleaving what is accepted, or about to be, is what the writes took, one behind the other, and what is delivered is as long as what the reads took |
| `QueueSharing.PtrArithmetic` | src/queue.c:54-73 | real_len and the free space computed from pointers in 0..len are the counts of bytes put in and not taken out |
| `QueueSharing.SequentialContents` | src/queue.c:65-73 | at rest the shared queue is the sequential one |
| `Alaw.TopBit` | src/openr2/r2engine-pvt.h:193-240 | -1 for zero, else the position at which shifting the word right leaves one, by five narrowing steps |
| `Alaw.TopBitIsLog` | src/openr2/r2engine-pvt.h:193-240 | that position is the floor of the logarithm to base two |
| `Alaw.DecodeEncode` | src/openr2/r2engine-pvt.h:257-288 | decoding what is sent for a sample gives the middle of its interval, for every sample |
| `Alaw.EncodeDecode` | src/openr2/r2engine-pvt.h:242-288 | encoding what a byte decodes to gives the byte back, for all 256 |
| `Alaw.AlternateBitsInverted` | src/openr2/r2engine-pvt.h:247 | both directions invert the even-numbered bits of a byte, its exclusive or with 0x55 |
| `Alaw.SentOnTheWire` | src/openr2/r2engine-pvt.h:257-276 | the byte sent for a sample, xored with 0x55, has the sign in bit 7, the segment in bits 4 to 6 and the interval in bits 0 to 3, by explicit ranges of the magnitude |
| `Alaw.ReadFromTheWire` | src/openr2/r2engine-pvt.h:278-288 | what a byte decodes to, by the same bits: the middle of its interval |
| `Alaw.QuantizedIdempotent` | src/openr2/r2engine-pvt.h:242-288 | decode after encode changes nothing the second time |
| `Alaw.QuantizationError` | src/openr2/r2engine-pvt.h:257-288 | the error is at most max(8, |x|/32) for sixteen-bit samples |
| `Alaw.QuantizedMonotone` | src/openr2/r2engine-pvt.h:257-288 | larger samples never decode to smaller values, and the result saturates at both ends |
| `Goertzel.ResultIsPower` | src/r2engine.c:455-466 | for every rotation and sample sequence the filter result is the squared magnitude of the rotated sum, hence not negative |
| `Goertzel.BlockEnergies` | src/r2engine.c:277-305 | so it is of every filter of a bank fed with one block |
| `Goertzel.PushAll` | src/r2engine.c:277-305 | the unrolled recurrence advances each filter of the bank in place |
| `MfReceiver.PositionsAgree` | src/r2engine.c:103-166 | the position table and the generator tables of both directions name the same digit for every pair of frequencies |
| `MfReceiver.TopTwoAreStrongest` | src/r2engine.c:312-333 | the selection loop finds the two largest energies, ties included |
| `MfReceiver.DigitIsOfStrongest` | src/r2engine.c:334-378 | a digit is reported exactly when the two strongest pass the tests, and it is the one generated with that pair |
| `MfReceiver.SignalExactly` | src/r2engine.c:312-378 | a block is taken for the signal whose two frequencies, in a table of the recommendation, are the strongest and pass the thresholds written as inequalities, and for none otherwise |
| `MfReceiver.TonesAreSignals` | src/r2engine.c:103-166 | the generators of both directions are made from that table |
| `MfReceiver.HeardInChunks` | src/r2engine.c:255-387 | the receiver state depends on the concatenated samples only |
| `MfReceiver.BlockOfSamples` | src/r2engine.c:255-387 | the digit of a block depends on the Fourier powers of its 133 samples only |
| `MfReceiver.Receiver.constructor` | src/r2engine.c:389-425 | the state before the first sample |
| `MfReceiver.Receiver.Select` | src/r2engine.c:312-333 | the loop computes the best and second best index |
| `MfReceiver.Receiver.Decide` | src/r2engine.c:334-378 | the tests with their early exits decide the digit of the energies |
| `MfReceiver.Receiver.Rx` | src/r2engine.c:255-387 | one call with any number of samples; it returns the digit only if a block ended in it |
| `DtmfReceiver.HitExactly` | src/r2engine.c:2951-2978 | a block is taken for the key whose two frequencies, in a table of the sixteen keys, are the strict peaks and pass the tests written as inequalities, and for no digit otherwise |
| `DtmfReceiver.NotchEquation` | src/r2engine.c:2875-2893 | the notches before the filters, as a difference equation |
| `DtmfReceiver.BlockOfSamples` | src/r2engine.c:2868-2978 | a whole block of 102 samples is taken for the key whose row and column pass on the Fourier powers of what the notches leave of it |
| `DtmfReceiver.AllDelivered` | src/r2engine.c:3005-3040 | with a callback every digit reported is delivered, in order |
| `DtmfReceiver.FirstKept` | src/r2engine.c:3005-3040 | without one the first 128 are kept and the others counted as lost |
| `DtmfReceiver.ReportNeedsTwo` | src/r2engine.c:3005-3040 | over every hit sequence a digit is reported only after two equal raw hits in a row |
| `DtmfReceiver.ReportsAreChanges` | src/r2engine.c:3005-3041 | reports are one for one the changes of in_digit to a digit |
| `DtmfReceiver.DigitEndsAfterTwo` | src/r2engine.c:3001-3043 | one deviating block never ends a digit, two in a row do |
| `DtmfReceiver.ThreeEstablish` | src/r2engine.c:3001-3043 | three equal blocks always establish their digit |
| `DtmfReceiver.TwoEstablish` | src/r2engine.c:3001-3043 | two do, if and only if the digit was there or last hit already, or the last block changed nothing |
| `DtmfReceiver.CommentedPatterns` | src/r2engine.c:2979-2989 | the nine patterns of the comment: the seven that hold, and that ABB and CDD do not |
| `DtmfReceiver.MayBeStarting` | src/r2engine.c:3062-3069 | the status between digits is x if and only if some next block can report a digit, and that is the digit of the last hit |
| `DtmfReceiver.LastHitMeaning` | src/r2engine.c:3043 | last_hit is the raw hit, or none when the hit was overridden |
| `DtmfReceiver.HeardInChunks` | src/r2engine.c:2868-2951 | the state depends on the concatenated samples only, in 102-sample blocks |
| `DtmfReceiver.NothingToFlush` | src/r2engine.c:3050-3056 | with a callback the buffer is empty at every end of call |
| `DtmfReceiver.ReceivedInChunks` | src/r2engine.c:2853-3060 | whole calls can be joined or divided |
| `DtmfReceiver.Receiver.constructor` | src/r2engine.c:2808-2851 | the state before the first sample |
| `DtmfReceiver.Receiver.Decide` | src/r2engine.c:2951-2978 | peaks and tests decide the hit of a block |
| `DtmfReceiver.Receiver.TakeHit` | src/r2engine.c:3001-3043 | the nested conditions of the debouncer, its buffer, its callback and its lost digits |
| `DtmfReceiver.Receiver.Rx` | src/r2engine.c:2853-3060 | one call with any number of samples |
| `ToneGen.StreamInChunks` | src/r2engine.c:522-592 | any split of a request yields the same samples and leaves the same generator |
| `ToneGen.SectionIsStream` | src/r2engine.c:522-592 | the rest of a section comes out in one piece |
| `ToneGen.StuckExactly` | src/r2engine.c:580-590 | a loaded generator is stuck for ever if and only if it repeats and its first two lengths are zero |
| `ToneGen.TwoTones` | src/r2engine.c:530-560 | the k-th sample of two tones is the rounded sum of both sines at k times their rates |
| `ToneGen.ModulatedTone` | src/r2engine.c:530-560 | and of a modulated carrier the product |
| `ToneGen.FourSections` | src/r2engine.c:522-592 | sound, silence, the sound going on and silence: which sample is which, in order |
| `ToneGen.PhasesAfter` | src/r2engine.c:2661-2667 | phase accumulators after k samples in closed form modulo 2^32, of sums and of modulated tones |
| `ToneGen.RepeatedToneIsContinuous` | src/r2engine.c:168-182 | a repeating tone of one section never ends, is phase-continuous over its repetitions, and its k-th sample is a closed form in k |
| `ToneGen.Generator.Generate` | src/r2engine.c:522-592 | one call writes exactly the next samples of the stream, fewer only at its end, and nothing else; it terminates on every generator that is not stuck |
| `ToneGen.Generator.Load` | src/r2engine.c:501-520 | a generator at the start of its first section |
| `MfSender.SignalIsPut` | src/r2engine.c:184-201 | each of the fifteen signals of the table of the recommendation is put with the phase rates of its two frequencies in the direction of the transmitter, one gain for both, and phase zero |
| `MfSender.SignalSounds` | src/r2engine.c:168-182 | the k-th sample after that is the rounded sum of its two sines at k times those rates, as long as samples are asked for |
| `MfSender.OthersAreSilent` | src/r2engine.c:184-201 | anything but a signal is silence from the next sample on |
| `MfSender.SentInChunks` | src/r2engine.c:168-182 | a tone is not broken between two requests |
| `MfSender.Sender.constructor` | src/r2engine.c:203-253 | nothing is sent |
| `MfSender.Sender.PutCode` | src/r2engine.c:184-201 | a code of the list starts its tone, and any other stops it |
| `MfSender.Sender.Tx` | src/r2engine.c:168-182 | one call writes the next samples, all that are asked for, and nothing else |
| `DtmfSender.KeyIsSent` | src/r2engine.c:2690-2728 | the generator of each of the sixteen keys has the phase rates of the two frequencies of the key, by the table of the receiver |
| `DtmfSender.KeySounds` | src/r2engine.c:2779-2806 | the samples of a key on an idle line: the rounded sum of its two sines at k times those rates for the on time, 0 for the off time, and no more |
| `DtmfSender.KeysSoundInTurn` | src/r2engine.c:2779-2806 | keys put in sound one after the other, each as it would alone |
| `DtmfSender.SentInChunks` | src/r2engine.c:2779-2806 | any split of requests over a queued digit string yields the same samples |
| `DtmfSender.Sender.constructor` | src/r2engine.c:2737-2752 | nothing is sent and no digit waits |
| `DtmfSender.Sender.Put` | src/r2engine.c:2760-2777 | all digits are queued, or none and the number that would not fit is returned; the queue can be read byte by byte afterwards if and only if the digits put in did not end exactly at the end of the buffer, or, with none put in, if it could before |
| `DtmfSender.Sender.Tx` | src/r2engine.c:2779-2806 | from a readable queue one call writes exactly the next samples of the digits, fewer only when all are sent; from any other it sends the buffer round and round and always fills the request, so the digits never run out |
| `DtmfSender.NothingToResend` | src/r2engine.c:2779-2806 | and a buffer in which nothing makes a sample never does, however often it is gone round: that call does not return |

## Left out

- DTMF/R2 dialling and detection in the protocol: answering is unchecked there; only MFC/R2 is modelled.
- The China and Mexico variants in the two-party setup: China uses one tone for two requests and forces max_ani, Mexico asks for the ANI in group C (`VariantsUnambiguous`); the single-channel theorems cover both.
- The mf_threshold filter (taken as zero) and the CAS persistence check (taken as off), in `HandleMfTone` and `HandleCas`.
- Failures of the I/O layer, of MF initialisation and of tone selection; logging, call files, configuration parsing, mutexes, the poll loop and the command-line tools.
- cas_rx_signal, which no handler consults, with fix_rx_signal; the names of states and the getters.
- Callbacks that call back into the library at once, except a disconnect inside on_call_accepted and the answer of the DNIS callback; other requests are separate steps of a run.
- The end of the ani array: it is a string without bound here, so an arbitrary peer that sends more digits than the array holds is not judged. Stale bytes behind an emptied DNIS, and a null ANI pointer with a table that has no restricted tone, are not followed either.
- The clock is read once per step, and in the run theorems timers may expire in any order; the scheduler theorems fix that order.
- Glare.GlareIsSafe: runs that go on after a protocol error are followed only where one end has missed the seize of the other (`LateRun`).
- SetupTheorems.SetupIsSafe: no timer but the answer delay expires and the DNIS callback always wants more (`ShortNumberIsSafe` and `StoppedSetupIsSafe` are the other cases, each by itself), the caller does not give up, both channels have their tables from one variant, and tables and settings are as in `SetupPremises`: a number of digits, a category with a tone, a DNIS limit within the number where the table has no tone for its end, automatic seize ack, no forced max_ani, no get_ani_first in a variant that can ask for ANI before the category, and with immediate_accept an accepting tone that has no other reading.
- ShortNumbers.ShortNumberIsSafe: the callee does not ask for the ANI before the category (China alone can), the cycle timer is long enough for the caller to fall silent, and immediate accept is off where `AcceptingAtTimeoutFails` applies.
- RunTheorems.SignalAgreesByHand: no ack but of an incoming call; `AckOutOfTurnExactly` shows what any other does.
- Teardown.TeardownIsSafe: metering and double answer are off; moves are in time, which `InTimeExactly` shows to be needed.
- openr2_context_get_time_to_next_event and openr2_context_remove_channel, whose list walks do not meet a minimum or set specification.
- Timers of negative length: they are ordered by the same comparison, but the deadline theorems take lengths of zero or more.
- Float rounding, the values of the sine table and the detection thresholds as acoustics: arithmetic is over reals, the table and the rounding to a sample are parameters, and so is the cast to sixteen bits.
- Alaw.DecodeEncode: integers are unbounded, so INT_MIN, which C cannot negate, is not distinguished.
- DtmfReceiver.Receiver.TakeHit: the realtime callback is not modelled; the digits callback is.
- DtmfSender.Sender.Put: a negative length, which stands for strlen, is not modelled.
- DtmfSender.Sender.Tx: with a queue that is sent round and round, asks that some byte of it makes a sample or that the digit being sent fills the request; the call does not return otherwise (`NothingToResend`).
- QueueSharing.SharingIsSafe: memcpy copies bytes in ascending order, and pointer stores and loads are atomic and in order; byte and message operations are not interleaved.
- ToneGen.Generator.Load: section lengths are not negative.
- ToneGen.Generator.Generate: a repeated generator has something to repeat, since tone_gen does not return otherwise (`StuckExactly`).
- Channels.Channel.Drive: takes Fire steps as passes only; a pass that is harmful ends what is promised, as `PassKeepsInvExactly` says it must.
- Channel groups its number buffers in one field of the object; the code has them as separate fields.
