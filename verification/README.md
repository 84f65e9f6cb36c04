# The park's servers: a verified model

The amusement park is a set of processes. A cashier, sixteen attraction workers and a restaurant serve any number of
client processes through bounded mailboxes, counting semaphores and one-slot reply queues. This project models the
servers' control loops and the protocol between clients and servers, and proves what they keep over every run.

* `Common.dfy`, `Layout.dfy`: people and weights; the attraction table, the admission criteria, the semaphore numbering.
* `Mailbox.dfy`: a mailbox with its event semaphore, shared by post-then-signal clients and a wait-then-receive server.
* `Rounds.dfy`: one round of an attraction (`AttractionHandler`) and the System V semaphore it releases its riders on.
* `CashierSpec.dfy`, `CashierProofs.dfy`, `CashierHistory.dfy`, `CashierTheorems.dfy`, `CashierClosing.dfy`,
  `CashierMembership.dfy`, `Cashier.dfy`: the two-class admission controller.
* `SchedulerSpec.dfy`, `SchedulerProofs.dfy`, `SchedulerTheorems.dfy`, `SchedulerPauses.dfy`, `SchedulerWaits.dfy`,
  `SchedulerHistory.dfy`, `SchedulerMembership.dfy`, `SchedulerReleases.dfy`, `Attraction.dfy`: the attraction scheduler.
* `RestaurantSpec.dfy`, `RestaurantProofs.dfy`, `RestaurantTheorems.dfy`, `RestaurantClosing.dfy`,
  `RestaurantHistory.dfy`, `RestaurantMembership.dfy`, `RestaurantReleases.dfy`, `Restaurant.dfy`: its one-slot variant
  with evacuation.
* `Serving.dfy`: serving a queue through handshakes, seen through the flags alone, for attractions and restaurant.
* `ReplyProtocol.dfy`: the permit, bill and acknowledgement handshake, for any number of clients.
* `Allocation.dfy`: how processes find their index in the shared pid table.

Each server is a class whose methods follow the source's, loop by loop. Their contracts equate the new state with a
specification function, and the theorems are about those functions, so they hold of the loops. What one request,
letter, sweep, pause or pass does is stated for every state without those functions, in terms of the events heard
(`RegisterExactly`, `ExitExactly`, `MailboxExactly`, `SweepExactly`, `PassExactly`), and what that comes to over a
whole run in terms of handshakes and letters alone: who is inside (`RegisteredExactly`, `RidersExactly`,
`GuestsExactly`), whose request comes when (`PostedInOrder`), and what becomes of every round (`EveryRoundEnds`).

**Environment.** A run is a script of passes. At every blocking call - the event wait, the mailbox receive, the two
halves of a handshake, the log line at the end of a pass or after the installation of a round - the script says which
events happen: signals, closing, passing time, posts and signals by clients, wake-ups by the main process, clients
taking leave tokens. It also says how each handshake ends: the queue is missing, the permit does not get through, or
it does and the reply is an acknowledgement, something else or nothing. Every theorem is for all scripts and all
outcomes. An error raised inside a handshake is caught by the source and has the effect of a reply that is missing, so
it has no outcome of its own.

**Where the code does less than one might expect.** Each has its exact condition.

* A pause that reaches a worker during a handshake does not stop the round from being installed, and makes it refuse
  and drop every request it still has (`PauseBrokenExactly`, `PauseBrokenByHandshake`, `PauseDropsQueueExactly`); one
  that comes during the mailbox receive lets the letter through (`PauseDuringReceive`, `HandlingBreaksStillExactly`).
  With pauses elsewhere every paused state is empty, and its queue stands still from the pause to the resume
  (`PauseIsClean`, `PauseFreezesQueue`).
* A paused worker spends tokens without reading, so a wake-up can be lost (`SkipsExactly`, `WakeUpLostDuringPause`);
  a worker that is never paused, the cashier and the restaurant lose none (`NeverPausedLosesNone`).
* A timeout of -1 means "no round", "no timeout" and "one second overdue" alike (`SleepsForeverExactly`), so a round
  can go on unnoticed (`OverdueRoundSleepsOn`; both for the attractions and for the restaurant).
* The cashier's counter exceeds the people registered exactly when a pid has joined again before it left, which cannot
  happen if no pid asks twice (`CounterAgreesWithMap`, `ReentryHappens`); then, or in a park smaller than 2, the loop
  can close over an unanswered request (`NormalTermination`, `RequestCanBeStranded`).
* A handshake under way when the park closes can still admit its client, and is then the last one that does
  (`LateAdmissionExactly` and `OneLateAdmission`, for the cashier and for the restaurant). If SIGTERM comes during it
  as well, the cashier ends with that client registered (`SigtermEndsTheLoop`, `ClientLeftExactly`).
* The constructor of a round sets the semaphore of its slot to zero. A wake-up that ends one round and begins the next in
  the same slot takes away the tokens of those who have not taken theirs in between (`NextRoundTakesTokens`, for the
  attractions and for the restaurant).
* A client that waits for its bill can be sent a permit for an old request; it takes it for no answer, and nobody is
  admitted (`AcceptedAsWanted`, `ExchangeExactly`, `StaleRequestAdmitsNobody`).
* An unread letter of a blocked server need not be from a client still to signal; only their numbers compare
  (`BlockedMeansSignalsToCome`, `UnreadAreUnsignalled`, `UnreadLetterMayBeSignalled`, `TwoLettersOfOneClient`).
* An acknowledged client need not be registered: the server may have stopped waiting (`UnconfirmedExactly`,
  `ClientMayBeAdmittedUnregistered`).
* docs/schemat-komunikacji.md:60-62 has the restaurant wait for every guest's exit. Without an evacuation the code
  sends guests away without one as soon as their round is over (`GuestLeavesExactly`, `ClosedLoopEndsExactly`); after
  the evacuation signal it waits for every exit, for good if one is missing (`EvacuationWaitsForExits`).
* The evacuation signal stops the service of requests, except when it comes during a refill: that refill goes on to
  serve its queue, and the guests it seats are not told to leave (`EvacuationSilences`, `WorkBreaksSilenceExactly`,
  `EvacuationDuringRefill`, `SeatedAfterEvacuation`).

## Model

| member | source | states |
|---|---|---|
| Layout.TableIsUsable | lib/include/SimulationData.hpp:28-154 | every row of the table has a capacity of at least 2, at least one slot, a positive duration, all within a byte, and the last row has one slot |
| Layout.CriteriaExactly | lib/src/SimulationData.cpp:20-43 | for every index the criteria hold exactly when the index is in the table and adult and child are within plain bounds; a child must reach both minimum heights |
| Layout.PrefixSumNeverWraps | lib/src/SimulationData.cpp:7-17 | for every table of 17 byte-sized counts the accumulator, which passes through 16 bits, is the true sum of the preceding counts |
| Layout.SlotIdsAreInjective | lib/src/SimulationData.cpp:3-18 | no two slots share a semaphore id, and every slot id lies above the lock, pause and event ids and within the handler range |
| Layout.SlotIdsAreOnto | lib/include/SimulationData.hpp:166-181 | every id of the handler range is the id of the slot that counting down the table finds, so slots and ids correspond one to one |
| Layout.RestaurantHandlerIsLast | lib/include/SimulationData.hpp:178-179 | the enumerator the restaurant uses equals the prefix sum exactly when the last row has one slot |
| Layout.OpenAllLoopSemaphores | app/main/src/MainProc/MainProc.cpp:120-127 | each event semaphore gains one token, the pause semaphore inside the id range ends at 1, the lock and all handler semaphores are untouched |
| Mailbox.InsertKeepsLetters | app/client/src/ClientProc/ClientProc.cpp:178-186 | posting to the priority queue loses and duplicates no letter |
| Mailbox.InsertKeepsUrgentFirst | app/client/src/ClientProc/ClientProc.cpp:178-186 | VIP letters stay in front of all others |
| Mailbox.InsertIsFifoPerClass | app/client/src/ClientProc/ClientProc.cpp:178-186 | a new letter is last among the letters of its priority, and those of the other priority keep their order |
| Mailbox.PlainInOrder | app/client/src/ClientProc/ClientProc.cpp:188-206 | if nobody posts an urgent letter, the letters read, then those unread, are the letters posted, in order |
| Mailbox.StepKeepsBalance | app/client/src/ClientProc/ClientPark.cpp:29-33 | post-then-signal by any number of clients keeps unread letters covered by tokens, the token in hand and clients still to signal |
| Mailbox.WaitExactly | lib/src/IPC/SemaphoreArray.cpp:74-117 | a wait goes on exactly if the timeout is valid, nothing interrupts it, there is no token and no expiry of a timeout that is one; it takes a token exactly if one is there, uninterrupted and with a valid timeout |
| Mailbox.WaitKeepsBalance | lib/src/IPC/SemaphoreArray.cpp:74-117 | the same for the server's wait, with its refused timeouts, expiries, and interrupts that leave a token behind |
| Mailbox.ReceiveKeepsBalance | lib/include/IPC/MessageQueue.hpp:163-189 | the same for a receive of at most one letter, even one without a token |
| Mailbox.SkipKeepsBalance | app/attraction/src/AttractionProc/AttractionProc.cpp:104-106 | a token spent without a receive is accounted for |
| Mailbox.BlockedMeansSignalsToCome | app/cashier/src/CashierProc/CashierProc.cpp:60-61 | a blocked server has at most as many unread letters as clients still to signal plus tokens it skipped |
| Mailbox.UnreadAreUnsignalled | app/client/src/ClientProc/ClientPark.cpp:29-33 | for a blocked server that never skips: if the letter of every client still to signal is unread, all unread letters are from such clients; the converse holds as well when there are as many of both and no client has two letters |
| Mailbox.UnreadLetterMayBeSignalled | app/client/src/ClientProc/ClientPark.cpp:29-33 | without that condition it fails: two clients signal in the other order and the token of one is spent on the letter of the other |
| Mailbox.TwoLettersOfOneClient | app/client/src/ClientProc/ClientPark.cpp:29-33 | the converse needs one letter each: a run in which a client's second letter stands where another's was |
| Rounds.Semaphore.Signal | lib/src/IPC/SemaphoreArray.cpp:74-95 | adding 0 is a wait for zero: a signal returns at once only if a zero amount meets a zero value |
| Rounds.AttractionHandler.constructor | lib/src/AttractionHandler.cpp:9-15 | a round starts empty, unstarted and unreleased, with its leave semaphore at 0 |
| Rounds.AttractionHandler.AddClient | lib/src/AttractionHandler.cpp:33-39 | a pid is registered once; a second registration is refused and changes nothing |
| Rounds.AttractionHandler.RemoveClient | lib/src/AttractionHandler.cpp:21-23 | removes exactly the pid and says whether it was there |
| Rounds.AttractionHandler.GetClientCount | lib/src/AttractionHandler.cpp:58-68 | the accumulated count is the number of people: riders plus children |
| Rounds.AttractionHandler.Finished | lib/src/AttractionHandler.cpp:29-31 | a round is over when its time has come or nobody is left |
| Rounds.AttractionHandler.StartAttraction | lib/src/AttractionHandler.cpp:41-48 | the first start fixes the finish time and resets the semaphore; later starts change nothing |
| Rounds.AttractionHandler.ReleaseClients | lib/src/AttractionHandler.cpp:74-80 | the first release adds one token for each registered pid, later ones none; it blocks only if an empty round meets a semaphore that is not 0 |
| CashierProcess.CashierProc.HandleSigTerm | app/cashier/src/CashierProc/CashierProc.cpp:286-295 | SIGTERM empties a closed cashier and adds a token; in an open park it does nothing |
| CashierProcess.CashierProc.RegisterClient | app/cashier/src/CashierProc/CashierProc.cpp:174-226 | is the specified registration in state and result, for every handshake outcome and every event during it; CashierMembership.RegisterExactly says what that comes to |
| CashierProcess.CashierProc.RemoveClient | app/cashier/src/CashierProc/CashierProc.cpp:251-257 | removes the client and its weight, or does nothing for an unknown pid |
| CashierProcess.CashierProc.HandleExitPark | app/cashier/src/CashierProc/CashierProc.cpp:129-171 | the bill handshake, skipped for unknown pids, malformed content and VIPs without a meal |
| CashierProcess.CashierProc.HandleRegisterMQ | app/cashier/src/CashierProc/CashierProc.cpp:90-119 | handles at most one letter as specified; CashierMembership.MailboxExactly says what that comes to, every exit ending in removal |
| CashierProcess.CashierProc.ServeVipQueue | app/cashier/src/CashierProc/CashierProc.cpp:63-67 | the loop computes the specified service of the VIP queue |
| CashierProcess.CashierProc.ServeOrdinaryQueue | app/cashier/src/CashierProc/CashierProc.cpp:69-73 | the loop computes the specified service of the ordinary queue |
| CashierProcess.CashierProc.OnePass | app/cashier/src/CashierProc/CashierProc.cpp:58-76 | one pass of the main loop, including a wait that does not return |
| CashierProcess.CashierProc.RunLoop | app/cashier/src/CashierProc/CashierProc.cpp:57-77 | the main loop over any script of passes is the iterated specification, so the theorems below hold of it |
| CashierSpec.Register | app/cashier/src/CashierProc/CashierProc.cpp:180-181 | a request stays in its queue exactly when the park is open and it does not fit, and then nothing has changed; queues and served requests are left alone |
| CashierSpec.ServeVips | app/cashier/src/CashierProc/CashierProc.cpp:63-67 | the VIP queue ends empty or with a head that does not fit an open park |
| CashierSpec.ServeOthers | app/cashier/src/CashierProc/CashierProc.cpp:69-73 | the same for the ordinary queue, unless a VIP request is left |
| CashierProofs.IterateKeeps | app/cashier/src/CashierProc/CashierProc.cpp:57-77 | every pass keeps counter, order of service and wake-up balance, and leaves a request over only for want of room |
| CashierHistory.RegisteredAreInside | app/cashier/src/CashierProc/CashierProc.cpp:251-257 | the registered pids are those that joined and have neither left nor been cleared since |
| CashierHistory.LostExactly | app/cashier/src/CashierProc/CashierProc.cpp:215-216 | the counter shows too much exactly when some pid joined while it was inside, and nothing has been cleared since |
| CashierHistory.UniqueNeverReenters | app/cashier/src/CashierProc/CashierProc.cpp:121-127 | if the pids of the requests received are distinct, nobody joins while inside |
| CashierHistory.IterateKeepsKnown | app/cashier/src/CashierProc/CashierProc.cpp:174-226 | every pass keeps the record: each registration has an acknowledged handshake of its own, in order, and none but the last is later than closing |
| CashierTheorems.CounterAgreesWithMap | app/cashier/src/CashierProc/CashierProc.cpp:215-216 | in every reachable state the counter lies between the people registered and the park size; it equals the former exactly when no pid has joined again before it left, and always if no pid asks twice |
| CashierTheorems.ReentryHappens | app/cashier/src/CashierProc/CashierProc.cpp:215-216 | it does happen: two passes in which the same pid enters leave one person registered and the counter of a park for two at 2 |
| CashierTheorems.RegisteredHaveAcknowledged | app/cashier/src/CashierProc/CashierProc.cpp:199-217 | in every reachable state each registered pid has acknowledged a permit in a handshake of its own and has not left since |
| CashierTheorems.JoinsExactly | app/cashier/src/CashierProc/CashierProc.cpp:178-217 | over every run, a handshake has led to a registration exactly if an open park began it and it was acknowledged |
| CashierTheorems.RegisteredHaveAccepted | app/client/src/ClientProc/ClientPark.cpp:35-51 | if the cashier's handshakes are, in order, those of a run of the reply-queue protocol, each registered pid has accepted a permit in that run |
| CashierTheorems.RegistrationsHaveOwnPermits | app/client/src/ClientProc/ClientPark.cpp:35-51 | in such a run no two registrations rest on the same permit |
| CashierTheorems.ServedInOrder | app/cashier/src/CashierProc/CashierProc.cpp:63-73 | over every run, each class is served in order of arrival without loss, and no ordinary request while a VIP request waits |
| CashierTheorems.VipsComeFirst | app/cashier/src/CashierProc/CashierProc.cpp:69 | a pass that leaves a VIP request over has not touched the ordinary queue |
| CashierTheorems.PostedInOrder | app/client/src/ClientProc/ClientProc.cpp:178-186 | over every run, from post to service: the requests of a class in the order of posting are those served, then those pending, then those unread, if every client posts with the priority of its class |
| CashierTheorems.AdmissionWastesAtMostOnePlace | app/cashier/src/CashierProc/CashierProc.cpp:63-73 | if a request is left after serving, the park is open, the next request does not fit and at most one place is free |
| CashierTheorems.NoLostWakeUp | app/cashier/src/CashierProc/CashierProc.cpp:60-61 | over every run, unread letters never exceed tokens plus clients still to signal |
| CashierTheorems.SleepsExactly | app/cashier/src/CashierProc/CashierProc.cpp:60 | a pass leaves the cashier asleep exactly if there is no token and no interrupt, and then nothing but the events has happened |
| CashierTheorems.NormalTermination | app/cashier/src/CashierProc/CashierProc.cpp:58-73 | a loop left without SIGTERM leaves a closed park with nobody registered and no letter; with room for two and no re-entry - in particular if no pid asks twice - no request is unanswered, and in general none if the counter left over leaves room for two |
| CashierTheorems.RequestCanBeStranded | app/cashier/src/CashierProc/CashierProc.cpp:58-73 | from every empty open state in which the counter leaves no room for two, one pass ends the loop with a request unanswered |
| CashierClosing.ClosingIsStable | app/cashier/src/CashierProc/CashierProc.cpp:178-197 | after closing the registered clients only shrink |
| CashierClosing.LateAdmissionExactly | app/cashier/src/CashierProc/CashierProc.cpp:178-217 | a newcomer is admitted to a closed park exactly when it fits, acknowledges, and the park closes during its handshake |
| CashierClosing.OneLateAdmission | app/cashier/src/CashierProc/CashierProc.cpp:178-217 | over every run, only the very last registration can be later than closing |
| CashierClosing.ClosingDrains | app/cashier/src/CashierProc/CashierProc.cpp:57-77 | with every registered exit in the mailbox and nobody still to signal, the loop ends within one pass per letter, with no client, the counter down by exactly the people registered and, if a pass was made, no request unanswered |
| CashierClosing.HandleSigintDrains | app/main/src/MainProc/MainProc.cpp:33-41 | closing followed by the wake-up of all loops gets a sleeping cashier drained, even with nothing to wait for |
| CashierClosing.SigtermWakesTheCashier | app/cashier/src/CashierProc/CashierProc.cpp:286-295 | in a closed park SIGTERM ends the wait it falls into and the loop, whichever clients never sent an exit |
| CashierClosing.SigtermEndsTheLoop | app/cashier/src/CashierProc/CashierProc.cpp:286-295 | over every run and for a SIGTERM at any blocking call: once it has cleared the clients of a closed park the current pass is the last; a client is left registered exactly if its registration comes after the clearing, and then it is the only one |
| CashierClosing.ClientLeftExactly | app/cashier/src/CashierProc/CashierProc.cpp:178-217 | SIGTERM leaves a client registered exactly if the entry fits, is acknowledged, and the closing and after it the signal come during its handshake |
| CashierClosing.EventsClearExactly | app/cashier/src/CashierProc/CashierProc.cpp:286-295 | some events during one blocking call clear clients and counter exactly if a SIGTERM among them finds the park closed, before or since; otherwise both stay as they are |
| CashierMembership.RegisterExactly | app/cashier/src/CashierProc/CashierProc.cpp:174-226 | one request, of either class: it stays queued exactly if an open park has no room; its party is registered and counted exactly if the park was open, had room and the permit was acknowledged; all else stays unless SIGTERM clears it |
| CashierMembership.NewcomerExactly | app/cashier/src/CashierProc/CashierProc.cpp:178-217 | a newcomer is registered, with its party, exactly if the park is open, the weights fit and it acknowledges, whatever happens meanwhile |
| CashierMembership.ExitExactly | app/cashier/src/CashierProc/CashierProc.cpp:103-110 | in an open park or a closed one, whoever sends an exit is gone and its weight given back; the others stay unless the bill handshake, held exactly if a bill is due, brings a SIGTERM to a closed park |
| CashierMembership.MailboxExactly | app/cashier/src/CashierProc/CashierProc.cpp:90-127 | at most one letter is read; a well-formed request is queued, the sender of an exit is removed, nothing else touches clients or arrivals |
| CashierMembership.RegisteredExactly | app/cashier/src/CashierProc/CashierProc.cpp:199-217 | over every run until SIGTERM takes effect: a pid is registered exactly if it acknowledged in a handshake that an open park began and no exit of its own has been read since, with the party of its last such request |
| AttractionProcess.AttractionProc.ClearSlot | lib/src/AttractionHandler.cpp:17-19 | nulling a slot destroys its round and releases its riders, without blocking |
| AttractionProcess.AttractionProc.CloseAttraction | app/attraction/src/AttractionProc/AttractionProc.cpp:27-31 | every round is destroyed |
| AttractionProcess.AttractionProc.SweepSlots | app/attraction/src/AttractionProc/AttractionProc.cpp:94-99 | destroys exactly the rounds that are over, or all of them |
| AttractionProcess.AttractionProc.HandleEvent | app/attraction/src/AttractionProc/AttractionProc.cpp:17-25 | the signal handlers and the other events follow the specification |
| AttractionProcess.AttractionProc.RegisterClient | app/attraction/src/AttractionProc/AttractionProc.cpp:201-251 | follows the specification in state, round and result for every handshake outcome; signals meanwhile cannot reach the new round |
| AttractionProcess.AttractionProc.FindFree | app/attraction/src/AttractionProc/AttractionProc.cpp:163-171 | finds the first free slot |
| AttractionProcess.AttractionProc.FillRound | app/attraction/src/AttractionProc/AttractionProc.cpp:182-186 | the loop serves the specified prefix of the queue |
| AttractionProcess.AttractionProc.BuildRound | app/attraction/src/AttractionProc/AttractionProc.cpp:173-198 | a round that someone boarded is installed and started, an empty one is destroyed without blocking |
| AttractionProcess.AttractionProc.FillSlot | app/attraction/src/AttractionProc/AttractionProc.cpp:159-196 | the call up to its log line: no round while paused or without a free slot, otherwise one in the first free slot |
| AttractionProcess.AttractionProc.CreateNewHandler | app/attraction/src/AttractionProc/AttractionProc.cpp:159-199 | one call in state and result, with what happens while the log line after an installation blocks |
| AttractionProcess.AttractionProc.CreateHandlers | app/attraction/src/AttractionProc/AttractionProc.cpp:110-112 | the creation loop terminates and computes the specified rounds |
| AttractionProcess.AttractionProc.RemoveClient | app/attraction/src/AttractionProc/AttractionProc.cpp:139-147 | is the specified early exit; SchedulerMembership.RemoveFromExactly says what that comes to |
| AttractionProcess.AttractionProc.HandleAttractionMQ | app/attraction/src/AttractionProc/AttractionProc.cpp:115-137 | at most one letter is handled |
| AttractionProcess.AttractionProc.HandleAttraction | app/attraction/src/AttractionProc/AttractionProc.cpp:104-113 | nothing is read while paused; otherwise rounds are created when the queue is long or the mailbox empty |
| AttractionProcess.AttractionProc.GetNextTimeout | app/attraction/src/AttractionProc/AttractionProc.cpp:284-304 | the running-minimum loop yields the specified timeout |
| AttractionProcess.AttractionProc.RunLoop | app/attraction/src/AttractionProc/AttractionProc.cpp:89-102 | the main loop over any script of passes is the iterated specification, so the theorems below hold of it |
| SchedulerSpec.Fill | app/attraction/src/AttractionProc/AttractionProc.cpp:182-186 | serving ends with an empty queue or a request that is allowed and does not fit |
| SchedulerSpec.FirstFreeIsFree | app/attraction/src/AttractionProc/AttractionProc.cpp:163-171 | the slot found is free and all before it are taken; none is found exactly when all are taken |
| SchedulerProofs.RegisterKeeps | app/attraction/src/AttractionProc/AttractionProc.cpp:201-251 | a registration keeps the load within capacity and the semaphore of the slot under construction at zero, whatever happens during the handshake |
| SchedulerProofs.IterateKeeps | app/attraction/src/AttractionProc/AttractionProc.cpp:89-102 | every pass keeps the scheduler invariant and lets existing rounds only shrink |
| SchedulerTheorems.RoundsAreSound | app/attraction/src/AttractionProc/AttractionProc.cpp:201-243 | in every reachable state the slots are fixed in number, and a running round is started, within capacity, and carries only clients whose request for this very round met the criteria while the worker was open and unpaused |
| SchedulerTheorems.AdmittedOnlyIfAllowed | app/attraction/src/AttractionProc/AttractionProc.cpp:204-242 | a rider is added, with its party, and put on record exactly for a request that is asked of an open, unpaused worker, meets the criteria, finds room and is acknowledged; nobody else is touched, and a request stays queued exactly if it is entitled and finds no room |
| SchedulerTheorems.RoundsNeverGrow | app/attraction/src/AttractionProc/AttractionProc.cpp:139-147 | over any continuation of a run, a round stays in its slot with its finish time and never gains a client |
| SchedulerTheorems.NoEarlyRelease | lib/src/AttractionHandler.cpp:74-80 | over every run, a round's semaphore is 0 until its release, riders are let go only after the finish time or by a pause, and no round is released twice |
| SchedulerTheorems.ReleaseTokens | lib/src/AttractionHandler.cpp:78 | a release raises the semaphore from 0 to the number of registered pids, so one of an emptied round does not block |
| SchedulerTheorems.DiscardNeverBlocks | app/attraction/src/AttractionProc/AttractionProc.cpp:180-198 | when a new round is discarded its semaphore is still 0, whatever signals came while the queue was served |
| SchedulerTheorems.ShutdownReleasesAll | app/attraction/src/AttractionProc/AttractionProc.cpp:306-309 | closing the process destroys every round and leaves one token for each of its riders |
| SchedulerTheorems.ServedInOrder | app/attraction/src/AttractionProc/AttractionProc.cpp:182-186 | over every run, served requests followed by the queue are the arrivals in order |
| SchedulerTheorems.GreedyPacking | app/attraction/src/AttractionProc/AttractionProc.cpp:182-195 | a round is installed non-empty and within capacity in the first free slot; if requests remain, the next does not fit and at most one place is empty |
| SchedulerTheorems.WorkConserving | app/attraction/src/AttractionProc/AttractionProc.cpp:110-112 | the creation loop ends with the worker paused, every slot running or the queue empty |
| Serving.BoardsExactly | app/attraction/src/AttractionProc/AttractionProc.cpp:182-188 | without a resume signal, serving a queue seats someone exactly if some welcome request is acknowledged before anything has made the server refuse |
| Serving.ServedRound | lib/src/AttractionHandler.cpp:33-39 | serving a queue keeps everybody who is in the round, with the party of the first boarding, and changes nothing of the round but its riders |
| Serving.PausesExactly | app/attraction/src/AttractionProc/AttractionProc.cpp:182-186 | without a resume signal, the pause flag is set after serving exactly if it was before or a served handshake contains a pause |
| SchedulerPauses.FillIsServe | app/attraction/src/AttractionProc/AttractionProc.cpp:182-186 | the worker's serving loop agrees in flags, round and number served with serving seen through the flags alone |
| SchedulerPauses.NewRoundIsServe | app/attraction/src/AttractionProc/AttractionProc.cpp:159-199 | a call installs exactly the riders seated in the handshakes served, in the first free slot, as a started, unreleased round that ends one duration later |
| SchedulerPauses.PauseBrokenExactly | app/attraction/src/AttractionProc/AttractionProc.cpp:182-196 | whether a call leaves a round running under pause is decided by the flags, the queue and the handshakes: it does exactly if there is a free slot, someone boards and the pause flag is set after the handshakes served |
| SchedulerPauses.PauseBrokenByHandshake | app/attraction/src/AttractionProc/AttractionProc.cpp:182-196 | without a resume signal, for every queue: the pause is broken exactly if some welcome request is acknowledged before closing and before any pause, and a served handshake contains a pause |
| SchedulerPauses.PauseDuringHandshake | app/attraction/src/AttractionProc/AttractionProc.cpp:232-241 | for every queue: a pause that arrives while the first acknowledgement is awaited leaves a running round behind |
| SchedulerPauses.PauseDuringLog | app/attraction/src/AttractionProc/AttractionProc.cpp:188-195 | a pause during the log line after an installation lets the new riders go like all others, ends the creation loop and keeps the rest of the queue |
| SchedulerPauses.PauseIsClean | app/attraction/src/AttractionProc/AttractionProc.cpp:17-31 | if no pause falls into a handshake, every reachable paused state has all slots empty |
| SchedulerPauses.PauseFreezesQueue | app/attraction/src/AttractionProc/AttractionProc.cpp:104-106 | over every run in which no pause falls into a receive or a handshake, from the pause to the resume the queue stands still, nothing is served and no round starts |
| SchedulerPauses.PauseDuringReceive | app/attraction/src/AttractionProc/AttractionProc.cpp:108-117 | a pause during the receive keeps the queue exactly if the letter read is no request; otherwise that request is appended |
| SchedulerPauses.PauseDropsQueueExactly | app/attraction/src/AttractionProc/AttractionProc.cpp:182-186 | a call keeps the queue of the pause exactly if no pause outlasts its handshakes; otherwise every request left is refused and dropped |
| SchedulerPauses.HandlingBreaksStillExactly | app/attraction/src/AttractionProc/AttractionProc.cpp:104-113 | without a resume signal, the handling of a wake-up ends paused with a changed queue exactly if the pause falls into a receive that reads a request or outlasts the handshakes of some round |
| SchedulerWaits.NextTimeoutIsMinimum | app/attraction/src/AttractionProc/AttractionProc.cpp:284-304 | the timeout is the earliest finish time less the present time, or -1 if nothing runs |
| SchedulerWaits.SleepsForeverExactly | app/attraction/src/AttractionProc/AttractionProc.cpp:300-303 | without a token no expiry ends the wait exactly when nothing runs or the earliest round is one second overdue, because -1 also means no timeout |
| SchedulerWaits.OverdueRoundSleepsOn | app/attraction/src/AttractionProc/AttractionProc.cpp:284-304 | it does happen: delayed by one second more than a ride lasts, a worker sleeps without timeout over its running round |
| SchedulerWaits.UnreadLettersAreCovered | app/attraction/src/AttractionProc/AttractionProc.cpp:91-106 | over every run, unread letters never exceed tokens, clients still to signal and tokens spent while paused |
| SchedulerWaits.SkipsExactly | app/attraction/src/AttractionProc/AttractionProc.cpp:91-106 | a pass spends a token without reading exactly if it finds one, uninterrupted and with a valid timeout, while the worker is paused |
| SchedulerWaits.NeverPausedLosesNone | app/attraction/src/AttractionProc/AttractionProc.cpp:91-106 | over every run without a pause signal, unread letters never exceed tokens plus clients still to signal |
| SchedulerWaits.WakeUpLostDuringPause | app/attraction/src/AttractionProc/AttractionProc.cpp:104-106 | a pause that interrupts the sleep, then a letter: the worker sleeps without timeout over a letter whose sender has signalled |
| SchedulerHistory.RidersHaveAcknowledged | app/attraction/src/AttractionProc/AttractionProc.cpp:232-241 | in every reachable state each rider of a running round has acknowledged a permit in a handshake for its own request |
| SchedulerHistory.RidersHaveAccepted | app/client/src/ClientProc/ClientAttraction.cpp:31-50 | if the worker's handshakes are those of a run of the reply-queue protocol, each rider has accepted a permit in that run |
| SchedulerMembership.RemoveFromExactly | app/attraction/src/AttractionProc/AttractionProc.cpp:139-147 | an early exit takes the pid out of the first round, in slot order, that has it, and changes nothing else; if none has it, nothing |
| SchedulerMembership.MailboxExactly | app/attraction/src/AttractionProc/AttractionProc.cpp:115-137 | at most one letter is read: a request, even malformed, is appended to the queue, an exit takes its sender out of the first round that has it, and nothing else changes |
| SchedulerMembership.RidersExactly | app/attraction/src/AttractionProc/AttractionProc.cpp:139-147 | over every run: a rider of a running round was admitted to it and stays until an exit of its own is read; a pid admitted once rides exactly until then |
| SchedulerMembership.PostedInOrder | app/client/src/ClientProc/ClientProc.cpp:188-196 | over every run, from post to service: the requests in the order of posting are those handled, then the queue, then those unread, if all are posted with one priority as clients do |
| SchedulerReleases.SweepExactly | app/attraction/src/AttractionProc/AttractionProc.cpp:94-99 | a sweep destroys exactly the rounds whose finish time is not later than now or that nobody rides (or all), each of their riders gets one token unless released before, and just that is recorded |
| SchedulerReleases.PauseExactly | app/attraction/src/AttractionProc/AttractionProc.cpp:17-31 | a pause empties every slot and gives each rider one token |
| SchedulerReleases.LeavesTakeTokens | app/client/src/ClientProc/ClientAttraction.cpp:87-90 | without a pause the tokens of a slot are those that its clients have not taken, one each |
| SchedulerReleases.BatchesExactly | app/attraction/src/AttractionProc/AttractionProc.cpp:104-113 | the handling of a wake-up constructs a round exactly if the worker is paused neither before nor after its receive, has a free slot, and its queue exceeds a full round or nothing is left to read |
| SchedulerReleases.WakeUpBatchesExactly | app/attraction/src/AttractionProc/AttractionProc.cpp:94-113 | the same for a whole wake-up: the slots of rounds that are over are free for it |
| SchedulerReleases.EveryRoundEnds | app/attraction/src/AttractionProc/AttractionProc.cpp:173-198 | over every run, every round ever constructed has been released exactly if it is not in a slot |
| SchedulerReleases.PassExactly | app/attraction/src/AttractionProc/AttractionProc.cpp:89-102 | the worker goes on sleeping, with the timeout it chose, exactly if nothing ends its wait; once awake it leaves its loop exactly if the park is closed at the end of the pass |
| SchedulerReleases.ClosingEndsWorker | app/main/src/MainProc/MainProc.cpp:33-41 | whatever it is doing, paused or not, the pass in which a worker hears the closing and the wake-up of all loops is its last, and its end lets every rider go |
| SchedulerReleases.WokenPassReleases | app/attraction/src/AttractionProc/AttractionProc.cpp:93-99 | a worker whose wait has ended has, by the end of the pass, released every round that was over, and none is left in a slot |
| SchedulerReleases.NextRoundTakesTokens | lib/src/AttractionHandler.cpp:9-15 | if the next round goes into the slot of one that ended in the same wake-up, its constructor takes away the tokens of all riders who have not taken theirs during the receive |
| RestaurantProcess.RestaurantProc.CloseAttraction | app/restaurant/src/RestaurantProc/RestaurantProc.cpp:151-155 | a pause releases the guests once and keeps the round |
| RestaurantProcess.RestaurantProc.RegisterClient | app/restaurant/src/RestaurantProc/RestaurantProc.cpp:173-218 | follows the specification in state, round and result for every handshake outcome |
| RestaurantProcess.RestaurantProc.CreateAttractionHandler | app/restaurant/src/RestaurantProc/RestaurantProc.cpp:114-137 | builds, fills and installs or discards a round, without blocking on its semaphore |
| RestaurantProcess.RestaurantProc.SendBillTo | app/restaurant/src/RestaurantProc/RestaurantProc.cpp:250-290 | only registered guests from outside the park get a bill |
| RestaurantProcess.RestaurantProc.HandleRestaurantMQ | app/restaurant/src/RestaurantProc/RestaurantProc.cpp:84-112 | at most one letter is handled; every exit ends in removal |
| RestaurantProcess.RestaurantProc.SweepFinished | app/restaurant/src/RestaurantProc/RestaurantProc.cpp:42-45 | is the specified sweep; RestaurantReleases.SweepExactly says what that comes to, for the round and for the tokens of its guests |
| RestaurantProcess.RestaurantProc.GetNextTimeout | app/restaurant/src/RestaurantProc/RestaurantProc.cpp:292-298 | the result is the least delay after which the time of the round is up, or -1 without a round |
| RestaurantProcess.RestaurantProc.RunLoop | app/restaurant/src/RestaurantProc/RestaurantProc.cpp:37-52 | the main loop over any script of passes is the iterated specification, so the theorems below hold of it |
| RestaurantProofs.IterateKeeps | app/restaurant/src/RestaurantProc/RestaurantProc.cpp:37-52 | every pass keeps the restaurant's invariant |
| RestaurantTheorems.RestaurantIsSound | app/restaurant/src/RestaurantProc/RestaurantProc.cpp:37-52 | over every run: load within capacity, semaphore at 0 until release, each round released once and only when over or paused, requests served in order, no wake-up lost |
| RestaurantTheorems.RefillIsGreedy | app/restaurant/src/RestaurantProc/RestaurantProc.cpp:114-137 | a refill seats someone or leaves no request; if requests remain, the next does not fit and at most one place is free |
| RestaurantTheorems.FillIsServe | app/restaurant/src/RestaurantProc/RestaurantProc.cpp:124-128 | the restaurant's serving loop agrees in flags, round and number served with serving seen through the flags alone |
| RestaurantTheorems.CreateRoundIsServe | app/restaurant/src/RestaurantProc/RestaurantProc.cpp:114-137 | a refill installs exactly the guests seated in the handshakes served, as a started, unreleased round that ends one duration later, or nothing |
| RestaurantTheorems.PauseBrokenExactly | app/restaurant/src/RestaurantProc/RestaurantProc.cpp:124-136 | whether a refill leaves guests unreleased under pause is decided by the flags, the queue and the handshakes: it does exactly if someone boards and the pause flag is set after the handshakes served |
| RestaurantTheorems.PauseBrokenByHandshake | app/restaurant/src/RestaurantProc/RestaurantProc.cpp:124-136 | without a resume signal, for every queue: the pause is broken exactly if some request is acknowledged before closing and a served handshake contains a pause |
| RestaurantTheorems.PauseIsClean | app/restaurant/src/RestaurantProc/RestaurantProc.cpp:14-17 | over every run without a pause during a refill's handshakes, a paused restaurant has released its guests |
| RestaurantClosing.ClosingIsStable | app/restaurant/src/RestaurantProc/RestaurantProc.cpp:177-204 | after closing the registered guests only shrink |
| RestaurantClosing.LateAdmissionExactly | app/restaurant/src/RestaurantProc/RestaurantProc.cpp:177-208 | a newcomer is added to the new round of a closed park exactly when it fits, acknowledges, and the park closes during its handshake |
| RestaurantClosing.OneLateAdmission | app/restaurant/src/RestaurantProc/RestaurantProc.cpp:177-208 | over every run, only the very last acknowledged entry can be later than closing |
| RestaurantClosing.ExitShrinks | app/restaurant/src/RestaurantProc/RestaurantProc.cpp:97-105 | an exit from a registered guest removes exactly that guest and lowers their number by one |
| RestaurantClosing.GuestLeavesExactly | app/restaurant/src/RestaurantProc/RestaurantProc.cpp:42-47 | a guest is gone exactly if its exit has been read or its round, being over, was destroyed by a restaurant neither paused nor evacuated |
| RestaurantClosing.EvacuationDuringRefill | app/restaurant/src/RestaurantProc/RestaurantProc.cpp:114-137 | an evacuation that comes during a refill lets the request in progress be served; others are served after it exactly if it comes before the last handshake, and none of the guests seated then is told to leave |
| RestaurantClosing.SeatedAfterEvacuation | app/restaurant/src/RestaurantProc/RestaurantProc.cpp:48-49 | it does happen: of two requests, the first hears the signal and the second is seated after it |
| RestaurantClosing.WorkBreaksSilenceExactly | app/restaurant/src/RestaurantProc/RestaurantProc.cpp:42-49 | a wake-up serves a request after the evacuation signal exactly if it refills and the signal comes during one of the handshakes |
| RestaurantClosing.EvacuationSilences | app/restaurant/src/RestaurantProc/RestaurantProc.cpp:24-27 | from the signal itself, over every run in which it does not come during a refill's handshakes, no request is served |
| RestaurantClosing.EvacuationWaitsForExits | app/restaurant/src/RestaurantProc/RestaurantProc.cpp:38-49 | from any evacuated state between two passes, over every run: no request is served, the guests left are those whose exits have not been read, and the loop ends exactly when the park is closed and every guest's exit has been read |
| RestaurantClosing.ClosedLoopEndsExactly | app/restaurant/src/RestaurantProc/RestaurantProc.cpp:38-45 | a closed restaurant that is woken leaves its loop exactly if it has no guest, its round is over and it is neither paused nor evacuated, or it reads the exit of its only guest |
| RestaurantTheorems.TimeoutMeetsFinish | app/restaurant/src/RestaurantProc/RestaurantProc.cpp:292-298 | a wait with the chosen timeout neither delays nor hastens the end of a round: it is destroyed after the wait exactly if at least the timeout has passed, unless a pause or an evacuation forbids it |
| RestaurantTheorems.SleepsForeverExactly | app/restaurant/src/RestaurantProc/RestaurantProc.cpp:292-298 | without a token no expiry ends the wait exactly when there is no round or it is one second overdue |
| RestaurantTheorems.OverdueRoundSleepsOn | app/restaurant/src/RestaurantProc/RestaurantProc.cpp:292-298 | it does happen: delayed by one second more than a round lasts, the restaurant sleeps without timeout over its running round |
| RestaurantClosing.ClosingEmptiesRestaurant | app/restaurant/src/RestaurantProc/RestaurantProc.cpp:37-52 | with every guest's exit in the mailbox and nobody still to signal, a closed restaurant leaves its loop within one pass per letter, with nobody registered |
| RestaurantHistory.GuestsHaveAcknowledged | app/restaurant/src/RestaurantProc/RestaurantProc.cpp:202-208 | in every reachable state each guest has acknowledged a permit in a handshake for its own request and for the present round |
| RestaurantHistory.GuestsHaveAccepted | app/client/src/ClientProc/ClientRestaurant.cpp:68-88 | if the restaurant's handshakes are those of a run of the reply-queue protocol, each guest has accepted a permit in that run |
| RestaurantMembership.EventsExactly | app/restaurant/src/RestaurantProc/RestaurantProc.cpp:161-170 | whatever events come, the guests stay in their round, and exactly an evacuation signal tells exactly those from outside the park to leave |
| RestaurantMembership.RegisterExactly | app/restaurant/src/RestaurantProc/RestaurantProc.cpp:173-218 | a guest is added, with its party, exactly for a well-formed acknowledged request that an open park has room for; a request stays queued exactly if an open park has no room |
| RestaurantMembership.ExitExactly | app/restaurant/src/RestaurantProc/RestaurantProc.cpp:97-105 | whoever sends an exit is gone and everybody else stays; the bill handshake is held exactly for a guest from outside the park, and what is heard in it takes effect |
| RestaurantMembership.MailboxExactly | app/restaurant/src/RestaurantProc/RestaurantProc.cpp:84-112 | at most one letter is read: a request is queued, even a malformed one, the sender of an exit is removed, and guests and queue change by nothing else |
| RestaurantMembership.GuestsExactly | app/restaurant/src/RestaurantProc/RestaurantProc.cpp:199-208 | over every run: a pid is a guest of the present round exactly if it was seated in it and no exit of its own has been read since, with the party of its first request for it |
| RestaurantMembership.PostedInOrder | app/client/src/ClientProc/ClientProc.cpp:198-206 | over every run, from post to service: the requests in the order of posting are those handled, then the queue, then those unread |
| RestaurantReleases.SweepExactly | app/restaurant/src/RestaurantProc/RestaurantProc.cpp:42-45 | a round is destroyed exactly if its finish time is not later than now or nobody is left, and neither a pause nor an evacuation holds it; each of its guests gets one token unless a pause has released them |
| RestaurantReleases.PauseExactly | app/restaurant/src/RestaurantProc/RestaurantProc.cpp:151-155 | a pause gives each guest of an unreleased round one token and keeps the guests registered |
| RestaurantReleases.LeavesTakeTokens | app/client/src/ClientProc/ClientRestaurant.cpp:34 | without a pause the tokens are those that the guests have not taken, one each |
| RestaurantReleases.RefillsExactly | app/restaurant/src/RestaurantProc/RestaurantProc.cpp:42-49 | a wake-up constructs a round exactly if there is none after its letter and the restaurant is neither paused nor evacuated |
| RestaurantReleases.EveryRoundEnds | app/restaurant/src/RestaurantProc/RestaurantProc.cpp:114-155 | over every run, the guests of every round ever constructed have been let go exactly if it is not the present, unreleased one |
| RestaurantReleases.PassExactly | app/restaurant/src/RestaurantProc/RestaurantProc.cpp:37-52 | the restaurant goes on sleeping, with the timeout it chose, exactly if nothing ends its wait; awake, it leaves its loop exactly if the park is closed and no guest is left |
| RestaurantReleases.NextRoundTakesTokens | lib/src/AttractionHandler.cpp:9-15 | if a wake-up ends a round and begins the next, its constructor takes away the tokens of all guests who have not taken theirs during the receive |
| ReplyProtocol.ClientStepKeeps | app/client/src/ClientProc/ClientPark.cpp:35-51 | every client step, timeouts and re-created queues included, keeps owners, acknowledgements and the offer under way matched; AcceptedAsWanted adds the kinds |
| ReplyProtocol.ServerStepKeeps | app/attraction/src/AttractionProc/AttractionProc.cpp:222-242 | every server step, stale requests and reading back its own permit included, keeps the protocol invariant |
| ReplyProtocol.Agreement | app/attraction/src/AttractionProc/AttractionProc.cpp:222-242 | over every interleaving, whoever a server registers or settles has accepted that very permit or bill |
| ReplyProtocol.OneClientPerOffer | app/client/src/ClientProc/ClientAttraction.cpp:31-50 | over every interleaving, no permit or bill is accepted twice |
| ReplyProtocol.AcceptedAsWanted | app/client/src/ClientProc/ClientRestaurant.cpp:68-88 | over every interleaving, stale requests included: an accepted offer was allowed, and its client received it from a queue of its own that it had created for an offer of that kind |
| ReplyProtocol.QueuesAreCreated | app/client/src/ClientProc/ClientRestaurant.cpp:90-96 | over every interleaving, every queue was created by its owner for the kind of offer it is on record for |
| ReplyProtocol.TakesUpExactly | app/client/src/ClientProc/ClientPark.cpp:35-45 | a client that finds a message goes on exactly if it is an allowed offer of the kind its queue was created for |
| ReplyProtocol.ExchangeExactly | app/client/src/ClientProc/ClientPark.cpp:97-106 | an undisturbed exchange, from any state: the client accepts and the server registers or settles exactly if the offer is of the kind asked for and not refused; a bill never is; both are free again unless the kinds differ |
| ReplyProtocol.StaleRequestAdmitsNobody | app/client/src/ClientProc/ClientRestaurant.cpp:124 | a permit for a stale entry request, made to a guest that waits for its bill, admits nobody |
| ReplyProtocol.TimeoutsLeadOut | app/client/src/ClientProc/ClientPark.cpp:35-37 | from any state the timeouts alone get both sides out of the handshake, and nobody is accepted or registered by them |
| ReplyProtocol.ClientStepKeepsTracked | app/client/src/ClientProc/ClientAttraction.cpp:31-50 | every client step keeps each acceptance accounted for: confirmed, given up by the server, or in the queue it waits on |
| ReplyProtocol.ServerStepKeepsTracked | app/attraction/src/AttractionProc/AttractionProc.cpp:222-242 | every server step keeps the same account, and no offer is both confirmed and given up |
| ReplyProtocol.UnconfirmedExactly | app/attraction/src/AttractionProc/AttractionProc.cpp:232-241 | over every interleaving, an accepted offer is unconfirmed exactly when the server has stopped waiting for its reply, or still waits with that reply in the queue |
| ReplyProtocol.ServerStepKeepsRecorded | app/attraction/src/AttractionProc/AttractionProc.cpp:222-242 | every server step keeps the record of its handshakes: each makes an offer of its own, later than those before, and one that ended in an acknowledgement is confirmed |
| ReplyProtocol.AcknowledgedMeansAccepted | app/attraction/src/AttractionProc/AttractionProc.cpp:222-242 | for any server whose handshakes are those of a protocol run: whoever acknowledged in one has accepted the permit made in it |
| ReplyProtocol.PermitsAreDistinct | app/attraction/src/AttractionProc/AttractionProc.cpp:216-222 | over every interleaving, no two handshakes make the same offer |
| ReplyProtocol.OfferedIsReachable | lib/src/PredefinedMQ.cpp:62-73 | the starting point of the two counterexamples below is reachable |
| ReplyProtocol.ClientMayBeAdmittedUnregistered | app/attraction/src/AttractionProc/AttractionProc.cpp:232-236 | agreement is one-sided: a client can consider itself admitted without being registered |
| ReplyProtocol.ServerMayTakeItsPermitBack | app/attraction/src/AttractionProc/AttractionProc.cpp:232-238 | the server can read its own permit back, which registers nobody |
| Allocation.TakeIndex | app/attraction/src/AttractionProc/AttractionProc.cpp:58-68 | the scan takes the first free index, or fails and changes nothing |
| Allocation.DoKeepsSound | app/attraction/src/AttractionProc/AttractionProc.cpp:54-69 | starts and stops keep every live process at its index and every entry naming its one holder |
| Allocation.IndicesAreDistinct | app/attraction/src/AttractionProc/AttractionProc.cpp:58-65 | live attractions have distinct indices, none of them a running restaurant's |
| Allocation.StartExactly | app/attraction/src/AttractionProc/AttractionProc.cpp:58-68 | a start takes the first free entry, records it, and changes nothing else; without a free entry it changes nothing |
| Allocation.StopUndoesStart | app/attraction/src/AttractionProc/AttractionProc.cpp:268-272 | a start followed by a stop leaves table and processes as they were |
| Allocation.StopUndoesRestaurant | app/restaurant/src/RestaurantProc/RestaurantProc.cpp:139-143 | the same for the restaurant, which starts exactly if its entry is free |
| Allocation.StopMakesRoom | app/attraction/src/AttractionProc/AttractionProc.cpp:268-272 | a stop at any time frees exactly its own entry, so any process can start then, at that index or an earlier one |
| Allocation.TakesRestaurantIndexExactly | app/attraction/src/AttractionProc/AttractionProc.cpp:58-65 | an attraction takes the restaurant's index exactly when the sixteen before it are taken and it is free |
| Allocation.DoSparesRestaurant | app/main/src/MainProc/MainProc.cpp:101-103 | with fewer than sixteen attractions alive a starting one gets an index below the restaurant's |
| Allocation.AllocationIsSound | app/attraction/src/AttractionProc/AttractionProc.cpp:268-272 | over every interleaving of starts and stops with at most sixteen attractions, live ones have indices of their own below the restaurant's |

## Left out

- System calls and their wrappers (queues, semaphores, shared memory, files, processes): only a bounded priority mailbox, a counting semaphore with wait-for-zero and a one-slot reply queue are kept.
- Mutual exclusion of `SemaphoreLock`: each critical section of the shared memory is taken as one step.
- Signal handlers that fire between blocking calls: they run while the process is blocked, including the blocked halves of handshakes; the log lines inside a handshake belong to its nearest blocking half.
- The client processes as objects: what they do towards a server is the client half of `ReplyProtocol` and the post and signal steps of `Mailbox`; their choice of attractions, stay times and random data are not part of this model.
- The map of slots keyed by semaphore id: slots are positions, and `Layout.SlotIdsAreInjective` and `Layout.SlotIdsAreOnto` tie positions to ids.
- A common schedule of servers and clients: that a server's handshakes are those of a run of `ReplyProtocol` is the hypothesis (`ReplyProtocol.Enacted`) of `RegisteredHaveAccepted`, `RidersHaveAccepted` and `GuestsHaveAccepted`; the other theorems about servers hold for all outcomes.
- Prices (`pCalculatePrice`) and the entry time and ticket type kept for them: floating-point arithmetic in one function, whose overtime sign is the reverse of docs/temat.md:11-12.
- Starts of processes in a closed park: the source raises an error and changes nothing.
- Teardown of the restaurant: the round left at process exit is not followed further; the attraction's is `SchedulerSpec.Shutdown`.
- Progress that depends on clients sending their exit: stated only under the condition that the exits are in the mailbox.
- Logger, log formatting, and what clients do when they are told to leave: no server state depends on them.
