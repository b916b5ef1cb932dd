# The city office: a verified model

Petents come to an office. They register in a table, pass a turnstile and a gate of N places,
fetch a ticket at one of three machines, and are served by clerks, who may redirect them to
another office or to the cashier. A director opens the office, may evacuate it, and closes it;
a second thread of his collects a report of every rejection. The processes share a semaphore
set, a record in shared memory and one typed message queue.

The model has two halves.

**The protocol.** `Office.State` is the shared state with any number of petents, machines and
clerks, the director and his collecting thread. A step is one system call or one access to the
shared record (`SharedState.Call`), made by one process and followed by its next position
(`Petent`, `Server`, `Director`). `++taken_ticket_count` is a load and a store, and the entry lock
reads the six limits one at a time, in any order. `rand()`, SIGUSR1, the machines' thresholds and
the moment of every signal are free choices. A run (`Office.Run`) is any interleaving from the
state `alloc_res` leaves, for every building size N >= 0 and every petent count P >= 1.

- `Ledger`: conservation laws as accounts. Each call moves as much into the shared part as it
  takes from its process, proved process by process and lifted to the whole office.
- `Interference`, `Invariant`: what a process may do to the shared state, what the others rely on,
  mutual exclusion, and the invariant of every run.
- `Gate`, `Registry`, `Turnstile`: the gate with the entry lock, the table of petents, the tokens.
- `Conservation`, `Safety`, `Closing`: the theorems about every state of every run, and about any
  two states of it.

**The programs.** `MachineProgram`, `ClerkProgram`, `PetentProgram`, `DirectorProgram`, `Rounds` and
`Setup` keep the form of the source where it runs in one go: a machine's and a clerk's round, the
critical section, a clerk's decision and drain loops, the scan of the table, `unlock_sem_building`,
opening and closing the office, the growing array of reports, the opening-time loop, `alloc_res`.
They work in place on `Memory.Memory`, on arrays or on objects, and are proved against specification
functions. `Solo` and the lemmas ending in `Alone` show that the steps of the protocol, put end to
end without interference, have the same effect; `Visits` does so for the stretches of a petent's
visit and for every way home.
`Witness` puts such stretches together into runs of the whole office and so shows that what the
theorems say of failures does happen.

Primitive calls follow POSIX.1-2017, System Interfaces, `semop()`, `msgsnd()` and `msgrcv()`.

## Assumptions

- Pids of petents are distinct and greater than 26, so no pid is a message type in use.
- `petent.vip` is 0 or 1; the source leaves it uninitialised for non-VIPs (src/programs/petent.c:133-135).
- Operations on the lock of the shared record do not fail and are not interrupted. Waits at the
  turnstile, at the gate, for a place in front of the machines or in a waiting room, and for a
  message may be interrupted by a signal at any time.
- The message queue has no size limit, so sending fails exactly for a type that is not positive;
  a petent dismissed with queue -1 relies on that (src/programs/petent.c:316).
- Clerk types are 1 to 6, as src/programs/main.c:302 passes them.
- In the protocol the collecting thread's realloc succeeds; `DirectorProgram.CollectReports` says
  what happens when it does not.

## Where the code and its documentation part

The model follows the code in each case.

- README.md:15 says that people queued at closing time are still served, README.md:28 that they are
  not. The code rejects and reports them (src/programs/urzednik.c:241-275).
- README.md:13 wants the office refused in the report of a failed redirect. The code restores the
  original faculty, so the report names SA (src/programs/urzednik.c:134, src/programs/urzednik.c:212);
  `Conservation.FailedRedirectReportedUnderSA` states it of every run, and
  `Witness.RedirectCanFail` gives the run in which it happens.
- README.md:32 wants petents to leave the building on signal 2. Those caught at the head of the
  clerk loop leave without returning their units (src/programs/petent.c:314), so the gate stays
  short of them; `Safety.UnitsBackUnlessAbandoned` and `Safety.AbandoningStep` state exactly when,
  and `Witness.UnitsCanBeLost` gives the run in which it happens.
- README.md:28 wants everybody queued at closing time in the report. A clerk that drains after the
  director has stopped its collecting thread leaves its reports in the queue;
  `Safety.ReportsComplete` states exactly when the array holds them all, and
  `Witness.ReportCanBeMissed` gives the run in which it does not.
- SA's two limits make up the whole count P, not the aligned share `sa_max`
  (src/programs/main.c:117-124); `SharedState.LimitSplit` states both.

## Model

| member | source | states |
|---|---|---|
| Conservation.SingleToken | src/programs/petent.c:276-368 | in every state of every run a petent blocked for an answer has exactly one message in the system (queued request, ticket in one server's hands, or queued answer), so has one whose wait a signal broke off and which is then on its way out, and any other petent has none |
| Conservation.ReadsOwnAnswer | src/programs/petent.c:339-364 | whatever a blocked petent reads is a lawful answer to its own latest request: granted as its desk may grant it, or denied as that desk may deny it |
| Invariant.AnswerIsMine | src/programs/petent.c:284-297 | the first message of a petent's own type stems from the very request it waits on; from the request account and distinct pids |
| Conservation.NumbersUnique | src/programs/urzednik.c:195-206 | every number from 1 to the shared counter is handed out or about to be exactly once, and no other number ever |
| Conservation.NoNumberTwice | src/programs/rejestracja.c:137-196 | no two answers ever sent, by machines or clerks, carry the same ticket number |
| Safety.LockExclusive | src/helpers/sync.c:51-67 | at most one process of the whole office is inside the lock of the shared record, in every state of every run |
| Conservation.LimitConserved | src/programs/rejestracja.c:142-182 | per office, initial limit = limit left + machine grants + SA redirects + places taken whose ticket is not yet sent, although SA clerks decrement without the lock |
| Conservation.LimitNotExceeded | src/programs/urzednik.c:141-173 | machine grants and redirects together never exceed an office's limit of the day |
| Safety.MachineDeniesExactly | src/programs/rejestracja.c:146-189 | under full interleaving a machine denies only when its office (both SA limits together) has no place left and grants only when it has one |
| Safety.LockOnlyWhenExhausted | src/programs/rejestracja.c:211-223 | six limits read at six moments while others decrement them, and still is_locked is set only when all six are 0 |
| Safety.ExhaustedMeansLocked | src/programs/rejestracja.c:211-226 | the converse: a check that begins with all six limits at 0 does not end, under any interference, before is_locked is set and the gate shut |
| Safety.LocksBeforeNextRound | src/programs/urzednik.c:133-238 | in every run a server that is serving when the last place is gone takes nobody more before entry is locked |
| Safety.NothingGivenAfterLock | src/programs/urzednik.c:219-234 | from the lock to the end of the run all limits are 0 and no office gives another place, at a machine or by redirect |
| Safety.DeniedAfterLock | src/programs/urzednik.c:165-169 | once is_locked is set every machine's try fails and every redirect is denied |
| Interference.CheckLearns | src/programs/urzednik.c:221-228 | torn reads are sound: the running total is 0 only if each limit read so far is 0 now, whatever the order of the reads |
| Safety.BuildingCapacity | src/programs/petent.c:97-108 | gate plus people inside never exceed N, a child counted; while open and unlocked, gate + people + units left behind by fugitives = N exactly |
| Safety.UnitsBackUnlessAbandoned | src/programs/petent.c:313-314 | at an open, unlocked gate with nobody inside all N units are back if and only if no petent left by the signal exit of the clerk loop |
| Safety.AbandoningStep | src/programs/petent.c:313-314 | of all steps of a petent exactly one leaves units behind: signalled, at the head of the clerk loop, its matter unsettled; and that step makes no call at all |
| Safety.GateStaysShut | src/programs/dyrektor.c:236-243 | once the director has closed or a server has completed the entry lock, the gate is 0 in every later state and nobody comes in |
| Gate.PetentMovesUnits | src/programs/petent.c:97-108 | a petent's step keeps gate + its units while open and unlocked, never raises the sum, and never raises the gate once closed or locked |
| Gate.DirectorKeepsDoors | src/programs/dyrektor.c:182-187 | opening with nobody inside puts exactly N units out; after closing the gate is 0 |
| Gate.ServerStaysQuiet | src/programs/rejestracja.c:211-224 | before anyone is inside no server can raise the lock, since some limit is not 0 |
| Gate.GateThroughout | src/programs/dyrektor.c:182-243 | is_opened follows the director, the lock implies empty limits, and a lock under way ends with an empty gate, in every state |
| Turnstile.TokensThroughout | src/programs/dyrektor.c:182-187 | tokens at the turnstile and with those who pass it: none before the opening, a hundred from then to the closing, never more |
| Turnstile.TokensAfterClosing | src/programs/petent.c:212-219 | after the closing only tokens of those who were passing come back, so the turnstile may rise above 0 but lets in no more than they were |
| Turnstile.ClosingEmptiesTurnstile | src/programs/dyrektor.c:236-237 | closing leaves no token at the turnstile |
| SharedState.SomePlaceAtFirst | src/programs/main.c:97-124 | with P >= 1 some limit starts above 0, so no lock can precede the opening |
| SharedState.LimitSplit | src/programs/main.c:117-124 | for every P the coded SA limits sum to P while the aligned share plus four tenths is P; the first one is half that share; none is negative |
| Conservation.SlotsConserved | src/programs/petent.c:263-310 | machine places + holders = 3 and waiting-room places + non-VIP holders = capacity, in every state, signal and error exits included |
| Conservation.AllPlacesBack | src/programs/petent.c:325-368 | when all petents are gone every place is back |
| Conservation.NormalQueueBounded | src/programs/main.c:94-131 | without signals no more normal-priority requests for an office's tickets are outstanding, queued or in hand at its clerk or the cashier or answered and unread, than its waiting room holds |
| Conservation.DenialsMatchReports | src/programs/rejestracja.c:139-205 | for each petent and ticket number denials and reports differ by exactly the servers between their two sends, so they agree whenever there is none |
| Conservation.DeniedAtMostOnce | src/programs/petent.c:276-387 | in a whole run no petent is denied twice, by machines and desks together |
| Conservation.ReportedAtMostOnce | src/programs/urzednik.c:208-275 | nor reported twice, under whatever numbers |
| Conservation.ReportsTellTheRequest | src/programs/urzednik.c:133-134 | every report carries petent, number, faculty and desk of the request it rejects, and never number -1 |
| Conservation.FailedRedirectReportedUnderSA | src/programs/urzednik.c:209-215 | of the two messages that end a failed redirect the denial names the office that refused, the report SA as faculty and desk |
| Witness.RedirectCanFail | src/programs/urzednik.c:137-215 | with fewer than ten petents planned for, in every office with a machine, an SA clerk and a petent for SA there is a run that ends in such a pair of messages |
| Witness.UnitsCanBeLost | src/programs/petent.c:312-314 | in every office with a machine and a petent that fits and finds a place there is a run that ends open, unlocked, with nobody inside, and the gate short of that petent's units |
| Witness.ToTheClerks | src/programs/petent.c:168-310 | from every such office a run leads through opening, registration, gate and machine to that petent at the clerks with ticket number 1 |
| Witness.SetUpIsSuited | src/programs/main.c:216-312 | the office that main sets up is such an office once a petent for SA comes |
| Witness.RunTo | src/programs/main.c:216-264 | stretches of processes running alone, put end to end from an initial state, are a run of the protocol |
| Witness.LongestVisitHappens | src/programs/petent.c:312-403 | in every office with the clerks it takes and ten or more petents planned for there is a run with the longest itinerary, machine, SA, KM, cashier, KM by priority, that ends with every unit and place back |
| Witness.WaitBrokenOff | src/programs/petent.c:284-297 | there is a run in which a signal breaks off a wait and the petent leaves its request behind, and only that |
| Witness.ReportCanBeMissed | src/programs/urzednik.c:241-275 | there is a run in which a petent rejected at closing time is reported after the collecting thread has stopped, so that the report stays in the queue |
| Safety.ReportsComplete | src/programs/dyrektor.c:50-77 | the director's array, the report in hand and the queued reports are all reports ever sent, in send order; the array is all of them if and only if none is in hand or queued; the thread stops with none in hand |
| Safety.RoutingSound | src/programs/urzednik.c:136-193 | a server only ever has requests of its own desk in hand, and every queued request carries an office, that desk's queue and the matching payment state |
| Safety.QueueAlwaysKnown | src/programs/petent.c:316-323 | the "unknown queue" branch is never taken |
| Safety.VisitsKeepToPath | src/programs/petent.c:312-388 | every visit, finished ones included, follows machine, SA at most, one office, cashier, the same office by priority; at most four services; priority once had is kept; a VIP never queues normally |
| Tickets.DesksOnce | src/programs/urzednik.c:136-188 | on an itinerary only an office visited before and after the cashier repeats, and its second visit is by priority |
| Tickets.ServiceLowersRank | src/programs/urzednik.c:136-193 | every answer of a clerk leaves strictly fewer services (SA 4, unpaid 3, cashier 2, paid 1, settled 0) |
| Tickets.JourneyGoesOn | src/programs/petent.c:312-388 | a lawful answer to the current request extends a lawful itinerary to a lawful itinerary |
| ClerkProgram.RoutingLawful | src/programs/urzednik.c:136-193 | for all draws a clerk's rewriting of a lawful request is a lawful answer under any number |
| ClerkProgram.RedirectsFromSAOnly | src/programs/urzednik.c:137-169 | the faculty changes exactly on an SA redirect, and the ticket is denied exactly when that redirect finds no place |
| ClerkProgram.PaymentEvents | src/programs/urzednik.c:175-188 | a clerk of SC, KM, ML or PD sends a petent to the cashier exactly at a payment event for an unpaid ticket; only the cashier makes a ticket paid, and it sends it back to its office by priority |
| ClerkProgram.SettledOtherwise | src/programs/urzednik.c:136-193 | a matter is settled exactly when there is no redirect, no payment event and the desk is not the cashier; a redirect with a place leads to the drawn office's queue |
| ClerkProgram.EventShares | src/programs/urzednik.c:137-175 | 40 of 100 values of the first draw redirect, 1 of 10 of the third sends to the cashier |
| ClerkProgram.OfficeShares | src/programs/urzednik.c:146-163 | each of KM, ML, PD and SC is drawn for a quarter of the values |
| Interference.DecisionOk | src/programs/urzednik.c:136-193 | in the protocol each clerk's decision keeps the ticket in hand answerable |
| Safety.TakenInOrder | src/programs/urzednik.c:108-113 | per message type, what has been taken is what was sent first, in that order |
| Safety.PriorityFirst | src/programs/urzednik.c:105-123 | when a clerk looks at its normal queue, all that was ever sent to its priority queue before its last look there has been taken |
| Mailbox.ReceiveOldest | src/programs/urzednik.c:108-113 | taking the first message of a type removes the oldest of that type and leaves every other type alone |
| Safety.DismissedForGood | src/programs/petent.c:378-387 | a petent told -1 never gets another request through in the rest of the run and never gets further from the exit |
| Safety.DismissedHeadsOut | src/programs/petent.c:314-346 | each own step of a dismissed petent sends nothing and brings it strictly closer to the exit |
| Safety.TableKeepsPetents | src/programs/petent.c:168-184 | no pid stands in the table twice; until a sweep begins every admitted petent still about is in it |
| Safety.TableWrittenSafely | src/programs/petent.c:171-182 | a registration writes a free slot, the first one unless a sweep has begun, and gives up only at a full table |
| Registry.OtherListed | src/programs/petent.c:168-184 | one petent's registration leaves the standing of every other petent in the table as it was |
| Registry.DirectorAndTable | src/programs/dyrektor.c:225-230 | a sweep, made without the lock, changes slots only to 0, so it never brings a pid into the table, and leaves every petent listed as it has to be |
| Ledger.PetentPays | src/programs/petent.c:168-403 | every petent step moves into each account's shared part exactly what it takes from the petent |
| Ledger.ServerPays | src/programs/urzednik.c:90-275 | the same for every step of a machine or clerk |
| Ledger.CallMovesShared | src/helpers/sync.c:51-87 | what each call does to the shared part of each account |
| Invariant.MutualExclusion | src/helpers/sync.c:51-67 | two holders of the lock are one process, from the lock account alone |
| Invariant.TokenHasOwner | src/programs/petent.c:276-285 | every request or answer in the queue belongs to a petent with that request unanswered |
| Invariant.StepKeepsCore | src/programs/urzednik.c:78-278 | every step of every process keeps the whole invariant |
| Invariant.CoreThroughout | src/programs/main.c:216-264 | the invariant holds in every state of every run |
| MachineProgram.OneCounter | src/programs/rejestracja.c:163-181 | whichever SA limit the coin picks, a request gets a place exactly when the two sum to more than 0 and lowers the sum by one; other offices are untouched |
| MachineProgram.CoinChooses | src/programs/rejestracja.c:163-181 | each side of the coin takes from its own SA limit while that has a place, and from the other one only then |
| MachineProgram.ExactlyTheTotal | src/programs/rejestracja.c:163-181 | over any requests and coins exactly the initial total is served, then none |
| MachineProgram.TakePlaceFor | src/programs/rejestracja.c:146-182 | the switch with its fallback decrements as specified and fails exactly at an empty office |
| MachineProgram.PrintTicket | src/programs/rejestracja.c:137-207 | the critical section grants with the next number, or denies and reports, and leaves the lock free |
| MachineProgram.AnswerAndReport | src/programs/rejestracja.c:188-205 | answer first, then for a denial the report with the ticket's original number and faculty |
| Rounds.CheckEntryLock | src/programs/rejestracja.c:211-226 | alone, the check locks and empties the gate exactly when all limits are 0 and it was not locked |
| Rounds.CheckAlone | src/programs/rejestracja.c:211-226 | the steps of any server's check, machine's or clerk's, without interference, have the effect of CheckEntryLock |
| Rounds.LookAtFlag | src/programs/urzednik.c:80-84 | reads is_opened under the lock and leaves everything as it was |
| Rounds.FlagAlone | src/programs/rejestracja.c:84-130 | at a closed office a machine stops and a clerk starts to drain; at an open one a machine switches, stays off or goes on, and a clerk takes the next petent |
| MachineProgram.MachineAlone | src/programs/rejestracja.c:134-208 | the protocol's steps of a machine, without interference, have the effect of PrintTicket |
| MachineProgram.Turn | src/programs/rejestracja.c:113-229 | one round of a machine: nothing at a closed office or below its threshold, otherwise at most one ticket printed and the entry lock checked |
| MachineProgram.TurnAlone | src/programs/rejestracja.c:81-229 | the protocol's steps of a machine in one round, without interference, have the effect of Turn, switch it on or off, or stop it at a closed office |
| ClerkProgram.ServeTicket | src/programs/urzednik.c:133-215 | one service decides, numbers, answers and reports as specified |
| ClerkProgram.Decide | src/programs/urzednik.c:136-193 | the branches compute the specified ticket and decrement at most the drawn office's limit, only when it has a place |
| ClerkProgram.Finish | src/programs/urzednik.c:202-215 | one answer, and one report with the original number and faculty exactly after a denial |
| ClerkProgram.ServiceAlone | src/programs/urzednik.c:133-215 | the protocol's steps of a clerk's service, without interference, have the effect of ServeTicket |
| ClerkProgram.Turn | src/programs/urzednik.c:78-238 | one round of a clerk: none at a closed office or once sent home; otherwise the next petent, by priority if there is one, is served and the entry lock checked |
| ClerkProgram.TurnAlone | src/programs/urzednik.c:78-238 | the protocol's steps of a clerk in one round, without interference, have the effect of Turn |
| ClerkProgram.DrainQueue | src/programs/urzednik.c:243-258 | the loop terminates and turns any queue into its other messages, in order, followed by report and dismissal of each petent taken, in queue order |
| ClerkProgram.CloseDesk | src/programs/urzednik.c:241-275 | priority queue first, then normal queue; limits, flags, counter, table and semaphores stay as they were |
| ClerkProgram.DrainedCompletely | src/programs/urzednik.c:241-275 | afterwards nobody is left on the desk's queues, all other messages keep their order, and there is one report and one (-1, -1) per petent, priority first |
| ClerkProgram.DismissalsAre | src/programs/urzednik.c:245-252 | the two messages of each drained petent: the report under its own number, then the answer with -1 and -1 |
| ClerkProgram.ClosingAlone | src/programs/urzednik.c:241-275 | the protocol's steps of a closing desk, without interference, have the effect of CloseDesk, on the queue and on everything else |
| ClerkProgram.EndsAlone | src/programs/urzednik.c:78-275 | from the head of its loop a clerk that is sent home, or finds the office closed, drains both queues and only then stops, without interference |
| ClerkProgram.LeavesAlone | src/programs/urzednik.c:85-275 | the same once it has read the flag |
| Closing.NobodyLeftAtDesk | src/programs/urzednik.c:241-275 | in every run, when a clerk has stopped, everybody who had sent it a request while it still worked has been taken off both its queues |
| Closing.StopsOnlyWhenEmpty | src/programs/urzednik.c:243-275 | a clerk stops only on finding its normal queue empty, and turns to that only on finding its priority queue empty |
| Closing.FlagHeeded | src/programs/urzednik.c:80-95 | in every run who has read the flag acts on what it still is: machines stop and clerks drain exactly at a closed office (or when sent home), and nobody polls then |
| Closing.EverySlotSwept | src/programs/dyrektor.c:287-292 | in every run the director finishes only after a last look at every slot of the table |
| Closing.SignalledAsksOnceMore | src/programs/petent.c:205-342 | in every run a petent gets at most one more request through after its signal |
| Visits.SignalEndsWait | src/programs/petent.c:212-357 | a signal ends exactly the waits at turnstile, gate, machines and waiting room and for an answer: a petent waiting for an answer breaks off and is on its way out, one at turnstile or gate is gone |
| Visits.WokenAlone | src/programs/petent.c:212-368 | woken like that a petent goes home, sends nothing and gives back exactly what it held |
| Visits.TestsHeedSignal | src/programs/petent.c:205-314 | at each of its three tests a signalled petent turns back |
| Visits.LeavesClerksWhenDone | src/programs/petent.c:312-388 | a petent leaves the clerks by its own step exactly when it is settled or called away at the head of the loop, refused, or dismissed and refused by msgsnd |
| Visits.NextStopAlone | src/programs/petent.c:312-376 | an open answer makes the petent leave its place, take one at the next office and send the ticket to the queue it names |
| Visits.SettledAlone | src/programs/petent.c:339-403 | served, a petent gives back its place and its units and is gone |
| Visits.RefusedAlone | src/programs/petent.c:339-388 | refused by an office, likewise |
| Visits.DismissedAlone | src/programs/petent.c:312-388 | dismissed by a closing desk and not called away, it queues once more, cannot send, and leaves with everything given back |
| Visits.DeniedAlone | src/programs/petent.c:284-307 | denied a ticket, it gives back its place and its units and is gone |
| Visits.ArriveAlone | src/programs/petent.c:168-281 | a new petent with room for it registers, passes turnstile and gate and sends its first request |
| PetentProgram.Register | src/programs/petent.c:168-184 | the scan enters the pid at the first free slot, changes nothing when there is none, and keeps entries distinct |
| PetentProgram.UnlockBuilding | src/programs/petent.c:97-108 | units go back exactly when the office is open and not locked, and the lock is released either way |
| PetentProgram.RegisterAlone | src/programs/petent.c:168-184 | the protocol's steps of a registration, without interference, have the effect of Register, and a full table sends the petent away |
| PetentProgram.UnlockAlone | src/programs/petent.c:97-108 | the protocol's steps of a petent on its way out, without interference, have the effect of UnlockBuilding, and it then gives back the place it waited in |
| DirectorProgram.ReportBook.Append | src/programs/dyrektor.c:63-74 | a granted realloc appends the report and keeps the others; a refused one loses it |
| DirectorProgram.CollectReports | src/programs/dyrektor.c:38-79 | over any turns each takes the oldest report while there is one; the array gains exactly those whose realloc succeeded, in send order, the rest stay queued, and lost counts the failures among those taken; other messages stay |
| DirectorProgram.KeptOrFailed | src/programs/dyrektor.c:63-74 | each report taken is kept or counted as lost |
| DirectorProgram.OpenOffice | src/programs/dyrektor.c:178-187 | flag up, 100 tokens at the turnstile, N units at the gate |
| DirectorProgram.OpenAlone | src/programs/dyrektor.c:135-187 | the protocol's first steps of the director, without interference, have the effect of OpenOffice |
| DirectorProgram.CloseOffice | src/programs/dyrektor.c:235-243 | flag down, turnstile and gate at 0 |
| DirectorProgram.DayEndsAlone | src/programs/dyrektor.c:191-292 | the rest of the director's day without interference, with an evacuation or without: the office is shut as CloseOffice does and the table swept |
| DirectorProgram.CollectAlone | src/programs/dyrektor.c:38-79 | the protocol's steps of the collecting thread, without interference, empty the report queue into the array as CollectReports does when no realloc fails |
| DirectorProgram.SweepTable | src/programs/dyrektor.c:225-230 | signals every listed pid in order and clears the table |
| DirectorProgram.SweepAlone | src/programs/dyrektor.c:225-230 | the protocol's steps of either sweep, without interference, clear the table as SweepTable does and touch nothing else |
| DirectorProgram.SignalsReachTheListed | src/programs/dyrektor.c:287-292 | the pids signalled are exactly those in the table |
| DirectorProgram.NextOccurrence | src/programs/dyrektor.c:300-316 | terminates with an instant not past at which the local clock shows the configured minute; it lies within the next day if and only if that minute, in seconds UTC, is less than a day beyond the present second of the day |
| DirectorProgram.EastIsWithinTheDay | src/programs/dyrektor.c:311-315 | for a UTC offset >= 0 that condition always holds |
| DirectorProgram.OneInstantADay | src/programs/dyrektor.c:311-315 | only one instant of a day is on the configured minute |
| DirectorProgram.WestCanOvershoot | src/programs/dyrektor.c:311-315 | west of Greenwich it can fail: a concrete time, minute and offset |
| DirectorProgram.GenerateTimes | src/programs/dyrektor.c:300-328 | opening and closing as configured or built in, within a day for offsets >= 0 |
| Setup.AllocRes | src/programs/main.c:49-143 | whatever the memory held before, every use gets its own semaphore of the set, and set, flags, counter and table together are the protocol's initial shared state |
| Setup.AllocSemaphores | src/programs/main.c:49-131 | indices handed out in order, the lock reserved at its value of creation, taken meanwhile and given back |
| Setup.AddSA | src/programs/main.c:117-131 | the two SA limits, its queue and the unused cashier pair get the next five indices and the coded values |
| Setup.CreateSemaphores | src/helpers/sync.c:27-49 | every semaphore of a new set has the default value |
| Setup.GenerateServers | src/programs/main.c:266-312 | three machines and one clerk per office, two for SA, and the cashier |
| Setup.ServersPerDesk | src/programs/main.c:266-312 | three machines, two clerks of SA, one of every other office and one cashier |
| Setup.SetUpIsInitial | src/programs/main.c:216-252 | the office so set up, with any petents, starts a run |

## Left out

- Logger, log files, console messages, the text of `raport.txt`, `faculty_to_str`: input and output only.
- fork, execl, wait, keys, attaching and freeing resources, argument parsing, exits of a failed initialisation: process plumbing.
- SIGINT to the main program and its handler; a petent's SIGINT is a signal like SIGUSR2.
- Real time: sleeps and arrival times become arbitrary scheduling, and nothing is claimed about progress; a request sent after its desk has drained may wait for ever.
- The director's choice of a clerk for SIGUSR1 (src/programs/dyrektor.c:215): any clerk may see the signal at any of its two tests.
- The child thread and its mutex: only `people` = 2 remains of it. The mutex between the director's two threads is left out too, since only one of them writes the array.
- Ticket-machine thresholds: a machine may switch on or off whenever it has looked at the flags.
- The `configured` turnstile, the cashier's own limit and queue, and test1 to test3.
- ClerkProgram.CloseDesk: is about a queue nobody else sends to; with senders `Closing.NobodyLeftAtDesk` says who has been taken.
