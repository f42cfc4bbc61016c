# Booking write path: model and proofs

An appointment needs one technician and one bay for its whole interval. Three services share the
work: Booking keeps the appointment rows, and the Technician and Bay allocators each keep a table of
occupations (HELD, CONFIRMED, RELEASED) guarded by an exclusion constraint. There is no transaction
across the three stores. A request reserves a technician, then a bay, inserts a HELD row, confirms
both occupations and flips the row to CONFIRMED, compensating in reverse when something fails. Two
allocator reapers and one sweeper repair what crashes leave behind.

This project models that write path as one state machine in which any number of requests, cancels,
sweeps, reaps and crashes interleave statement by statement, and proves what it promises.

## Structure

- `Allocator`, `Stores`: the tables and the SQL statements on them, the store invariant, and what each
  statement may do to what another request knows (`Evolve`, a rely/guarantee relation).
- `Protocol`: the program counters of the handlers, one call per step. `Invariant`: an assertion for
  every program counter, stable under everybody else's steps; hence an invariant of every run.
- `Safety`, `Saga`: properties of every reachable state and of every run.
- `Linking`, `SoleConfirmer`, `Keys`: no double booking of appointments under hypotheses on the faults.
  `Undercut`: exactly when an appointment holds its occupations, under any faults. `DoubleBooking`: the
  converse, and `Counterexample`: two runs that end in a double booking.
- `Calendar`, `Linearization`: refinement of the three stores to one atomic calendar, and what every answer
  says about it.
- `Recovery`, `RecoveryRun`, `Convergence`: the sweeper and the reapers reach a clean state, and every run
  of enough sweeps, with clock and reapers going on, ends in one.
- `Reserve`, `Capacity`: the allocator as a class, its claim query and retry loop, and how successive
  claims fill the free bays.
- `Service`: the handlers of the booking service as a class, call by call in the order of the code, in the
  middle of any run of the protocol, with other requests in flight; each is proved to be the machine of
  `Protocol`, and what that means for its answer.
- `Sequential`: what each request does when nothing fails and nobody else moves, every value it leaves behind
  included, said without the machine.
- `Hours`, `Fingerprint`: opening hours and shifts; the request fingerprint.

## Fault model

- A call succeeds and is answered, fails without effect, or takes effect while its caller sees an error.
  A call is never delivered after its caller has seen the reply.
- A request may crash between any two calls. Each SQL statement is atomic; the pick of a claim and its
  constraint-checked insert are two steps, so a pick may be stale.
- Ids are fresh. All databases share one clock that never goes back (docs/SYSTEM_DESIGN.md:323).
- "Any faults" below means all of this. Where a theorem needs more, its hypothesis is a predicate on the
  steps of the run: `Linking.Genuine` (errors seen by the confirmers of one row tell the truth, and no
  other CONFIRMED row carries their key), `SoleConfirmer.Alone` (one confirmer of the row at a time, and
  a failed write on its row wrote nothing), `Saga.Calm` (the request's own Releases take effect and its
  last read succeeds).

## Findings

- Fault-free double booking. When two requests confirm one hold and the second one carries a key that an
  earlier appointment already holds, the second finds the row still HELD, releases the hold's occupations,
  and the first then flips the row. The appointment is CONFIRMED with nothing held, and the slot can be
  booked again (`Counterexample.KeyReuseDoubleBooks`). One spurious error of the row update does the same
  without any key (`Counterexample.SpuriousErrorDoubleBooks`). Exactly when: a CONFIRMED appointment holds
  both its occupations if and only if no compensation in the run reached one of them
  (`Undercut.LinkedIffNotUndercut`), so every double booking has such a compensation behind it
  (`Undercut.DoubleBookingHasUndercut`); and once an appointment has lost an occupation a double booking is
  within reach (`DoubleBooking.UnlinkedDoubleBooks`). As a guard: the row update should fail if one of the two
  occupations has been released, and the compensating Release if the occupation belongs to a CONFIRMED
  row; a step keeps every CONFIRMED row linked if and only if it obeys this (`Calendar.GuardIsExact`).
- A shop that closes at local midnight lets a job end there, and the shift clause then compares with minute
  0 of the next day, which every shift admits (`Hours.MidnightCloseAdmitsAnyShift`). The design document
  says the shift covers the whole interval; `Hours.ShiftCoversIff` says exactly when it does, to the
  microsecond, and `Hours.ShiftHoldsUnlessMidnight` when it does up to a minute.
- A booking that succeeded answers "not found" if the last read fails, and its occupations stay CONFIRMED
  (`Saga.CalmIsExact`). A confirm whose own update took effect answers with an error in exactly two cases:
  that one, and a lost answer of the update whose re-read fails or finds the row CANCELLED
  (`Linearization.EveryAnswerExplained`).

## Model

| member | source | states |
|---|---|---|
| Stores.InsertOccOk | backend/services/technician/reserve.go:160-197 | The constraint-checked insert of a hold keeps the store invariant and disturbs nobody else's knowledge |
| Stores.InsertExclusive | backend/services/technician/migrations/001_init.sql:46-50 | Inserting a hold where no live occupation of the resource overlaps keeps all live occupations pairwise disjoint |
| Stores.ConfirmOccExact | backend/services/technician/reserve.go:102-109 | A Confirm of any id keeps the invariant if and only if, when it takes effect, some row names the occupation (Booking confirms no other) |
| Stores.ReleaseOccExact | backend/services/technician/reserve.go:126-129 | A Release of any id, known or not, keeps the invariant and leaves the occupation dead; it respects the other requests if and only if the occupation is stored on a row or its releaser reserved it |
| Stores.ReapOccsOk | backend/shared/pkg/reaper/reaper.go:25-26 | Deleting expired holds keeps the invariant and takes nothing a CONFIRMED row needs |
| Stores.InsertRowOk | backend/services/booking/store.go:55-77 | Inserting the HELD row with both ids keeps the invariant: same interval and resources as its occupations, expiring no earlier |
| Stores.PromoteRowOk | backend/services/booking/store.go:113-128 | The compare-and-set keeps the invariant when both occupations have been confirmed before |
| Stores.PromoteKeys | backend/services/booking/migrations/001_init.sql:21-23 | The partial unique index keeps CONFIRMED keys unique, with the empty key stored as NULL |
| Stores.CancelRowsOk | backend/services/booking/store.go:138-146 | Cancelling any set of rows keeps the invariant, cancels exactly those and leaves every row's ids set |
| Stores.ClearRowOk | backend/services/booking/store.go:210-216 | Clearing the ids keeps the invariant once both occupations are dead |
| Invariant.LocalStable | backend/services/booking/service.go:213-260 | What a handler knows at any point between two calls survives every step of everybody else |
| Invariant.CallOk | backend/services/booking/service.go:51-374 | Any call of any handler, however it is answered, keeps the store invariant, establishes the assertion of the next program point and respects what others rely on |
| Invariant.StepInv | backend/services/booking/service.go:51-374 | Every step of the whole system keeps the invariant, under any faults |
| Invariant.ReachableInv | backend/services/booking/service.go:51-374 | The invariant holds in every reachable state |
| Safety.LiveDisjoint | backend/services/technician/migrations/001_init.sql:46-50 | Live occupations of one technician or bay never overlap, however stale the picks |
| Safety.CollisionWitness | backend/services/technician/reserve.go:205-215 | Every refused insert has a witness: a live overlapping occupation of the picked resource, committed after the pick looked |
| Safety.ConfirmedIsNamed | backend/services/booking/saga.go:169-178 | A CONFIRMED occupation is stored on exactly one appointment row, under any faults |
| Safety.UnnamedGoesAtTtl | backend/services/technician/reserve.go:94-109 | An occupation no row names is HELD, can no longer be confirmed after 120 s, and goes with the next reap |
| Safety.ThreeWayAgreement | backend/services/booking/saga.go:93-131 | A row and both its occupations, while they exist, have the same interval and the recorded resources |
| Safety.NoSharedOccupation | backend/services/booking/saga.go:93-131 | Two rows never name one occupation |
| Safety.Frozen | backend/services/booking/store.go:113-146 | Over any run no interval, resource or customer changes and statuses only move forward; only HELD occupations are ever deleted |
| Safety.ClearedForever | backend/services/booking/service.go:352-374 | Once a CANCELLED row's ids are cleared, both occupations it named are dead and no later step makes them live |
| Safety.CancelIsFinal | backend/services/booking/service.go:291-306 | After a Cancel whose update and Releases succeeded, the row is CANCELLED and both occupations are dead in every later state, against any number of confirmers |
| Safety.CancelReleaseKills | backend/services/booking/service.go:299-304 | A Release of a Cancel that takes effect, answered or not, leaves its half of the row dead in every later state, whatever the answer of the Cancel says |
| Safety.ExpiriesNest | backend/services/booking/store.go:62-68 | Technician expiry, bay expiry and row expiry are in this order at insert |
| Safety.ConfirmedInTime | backend/services/booking/store.go:113-122 | A CONFIRMED row had each occupation confirmed within 120 s of its own Reserve, and no reaper ever takes them |
| Safety.SweeperSparesUnexpired | backend/services/booking/store.go:150-178 | The sweeper cancels no HELD row with an unexpired HELD occupation |
| Safety.OneRowPerKey | backend/services/booking/migrations/001_init.sql:21-23 | However many same-key requests race, at most one CONFIRMED row carries the key |
| Safety.ReplayIsNoOp | backend/services/booking/service.go:181-186 | Once a row is CONFIRMED under a key, a later request with this key begins, others take any steps, its first call is answered: if the row is still CONFIRMED the request is over and no store has changed, and it replays the row for equal fields and conflicts for others |
| Safety.BookingBindsKey | backend/services/booking/store.go:113-128 | Whenever the update of a keyed booking takes effect, its answer arriving or not, it leaves exactly the row, key and fingerprint that replay later compares |
| Safety.HoldReplayIsNoOp | backend/services/booking/service.go:113-134 | Confirming an already CONFIRMED hold changes no store and replays it, unless the key belongs to another CONFIRMED row |
| Safety.CapacityBound | backend/services/bay/migrations/001_init.sql:22-26 | At any instant at most as many occupations are live on a set of bays as there are bays |
| Saga.SagaStep | backend/services/booking/service.go:151-204 | Every claim a request made is dead, in its hands, or of a Reserve whose answer was lost; every step keeps this |
| Saga.AllOrNothing | backend/services/booking/service.go:151-204 | A booking request that returns an error has left none of the occupations it reserved live, over every failure point |
| Saga.ReleasesOnlyItsOwn | backend/services/booking/service.go:206-212 | A booking request releases only occupations it reserved itself |
| Saga.SameKeyLoserHoldsNothing | backend/services/booking/service.go:243-247 | A direct booking that loses the race for its key has released its own pair |
| Saga.CalmIsExact | backend/services/booking/service.go:196-203 | At each call Calm speaks of (bay Release, technician Release, last read) the request lets go of a live occupation, its technician's or its bay's, without succeeding if and only if the demand is broken |
| Saga.LeftBehindExactly | backend/services/booking/service.go:151-204 | Over any run, claim by claim: a booking request that ends in an error leaves an answered claim live only if its own Release of it, or its last read, failed; and for a claim live just before such a call, it is let go live if and only if the call had no effect or failed |
| Linking.LinkStep | backend/services/booking/service.go:213-260 | With genuine errors, no occupation of a row that can still be promoted is released or about to be; every step keeps this |
| Linking.LinkInvLinks | backend/services/booking/service.go:213-260 | That invariant gives: a CONFIRMED row has both occupations CONFIRMED on its resources and interval |
| Linking.GenuineRunLinks | backend/services/booking/service.go:213-260 | Over any run with genuine errors for a row, any number of confirmers, the CONFIRMED row holds both occupations |
| Linking.LinkedDisjoint | backend/services/booking/service.go:213-260 | Two such rows never overlap on a technician or a bay |
| SoleConfirmer.SoleStep | backend/services/booking/service.go:219-257 | With one confirmer in flight per row and harsher faults, the linking invariant is kept by every step |
| SoleConfirmer.AloneRunLinks | backend/services/booking/service.go:219-257 | Over any such run a CONFIRMED row holds both occupations |
| SoleConfirmer.NoDoubleBooking | backend/services/booking/service.go:213-260 | End to end: two appointments that each meet one of the hypotheses are never both CONFIRMED and overlapping on a technician or a bay |
| Undercut.LinkedIffNotUndercut | backend/services/booking/service.go:213-260 | Under any faults and any number of confirmers: a CONFIRMED row holds both occupations if and only if no compensation in the run reached one of them |
| Undercut.DoubleBookingHasUndercut | backend/services/booking/service.go:219-257 | Of two CONFIRMED rows that overlap on a technician or a bay, at least one had an occupation released by a compensation |
| DoubleBooking.UnlinkedDoubleBooks | backend/services/booking/service.go:219-257 | From any reachable state in which a CONFIRMED row has lost an occupation, some run continues to two CONFIRMED appointments overlapping on a shared technician or bay |
| Undercut.FlipLinksIff | backend/services/booking/store.go:113-128 | A row update that confirms a row leaves it holding both occupations if and only if neither has been released when it runs |
| Undercut.HypothesesPreventUndercut | backend/services/booking/service.go:213-260 | Each of the two linking hypotheses keeps every compensation away from a row that ends CONFIRMED |
| Keys.HonestIsGenuine | backend/services/booking/service.go:243-247 | Errors that tell the truth, and no row promoted under a key another CONFIRMED row carries, are genuine for every row |
| Keys.HonestNoDoubleBooking | backend/services/booking/service.go:213-260 | Hence no double booking, for any number of concurrent requests and crashes; a failed attempt may be retried with its key |
| Keys.OneAttemptIsHonest | backend/services/booking/migrations/001_init.sql:21-23 | If clients start an attempt under a key only when its earlier attempts are over and none is CONFIRMED on another row, the unique index never refuses a promotion |
| Keys.OneAttemptNoDoubleBooking | backend/services/booking/service.go:213-260 | So such clients and truthful errors rule double bookings out |
| Calendar.StepRefines | backend/services/booking/store.go:113-146 | Each step of the protocol is one legal operation on an atomic calendar: the promotion books, the cancelling update drops, nothing else shows |
| Calendar.GuardIsExact | backend/services/booking/service.go:213-260 | A step from a state where all CONFIRMED rows hold their occupations leads to such a state if and only if it promotes no row with a released half and compensates no half of a CONFIRMED row |
| Calendar.GuardedRunIsExact | backend/services/booking/service.go:213-260 | Over any run: all CONFIRMED rows hold their occupations at every moment if and only if every step is guarded |
| Calendar.HypothesesGuard | backend/services/booking/service.go:213-260 | Runs in which every row meets a linking hypothesis are guarded |
| Linearization.AnswersMean | backend/services/booking/service.go:51-306 | Under any faults: a created row is what its request asked for, made of its own claims; a booked row is the request's own or its hold and was CONFIRMED; a replayed row was CONFIRMED and carries the request's key and fingerprint, or is its hold; a cancelled row is CANCELLED |
| Linearization.EveryAnswerExplained | backend/services/booking/service.go:113-306 | Under any faults: "booked" has the booking of its row among the calendar's operations between the request's beginning and its answer; a replay saw its row on the calendar at such a moment; a cancel leaves its row off the calendar for good; a conflict, a "not found" and an internal error have their reason in a call of the request (the key on another CONFIRMED row; no such row or a failed call; a failed call); a confirm whose own update took effect answers with an error if and only if its last read failed, or the update's answer was lost and the re-read failed or found the row CANCELLED |
| Linearization.GuardedRefinesCalendar | backend/services/booking/service.go:213-306 | Any guarded run, whatever fails, behaves as one atomic calendar whose contents are the CONFIRMED rows, and every answer of every request is explained by it as in the two rows before |
| Linearization.RefinesCalendar | backend/services/booking/service.go:213-306 | Runs in which every row meets a linking hypothesis are guarded, and so refine the calendar, answers included |
| Counterexample.KeyReuseDoubleBooks | backend/services/booking/service.go:243-247 | A run with every call answered and no crash ends with two CONFIRMED appointments on one technician and bay |
| Counterexample.SpuriousErrorDoubleBooks | backend/services/booking/service.go:248-257 | So does a run without keys in which one row update fails spuriously |
| Recovery.PassProgress | backend/services/booking/service.go:331-374 | One undisturbed sweep deals with at least fifty of the rows still to be swept or released, or with all of them, and with a hundred at most |
| Recovery.NoWorkIsClean | backend/services/booking/service.go:331-374 | With no row left to deal with, every live occupation belongs to a CONFIRMED row and no CANCELLED row holds ids |
| Recovery.AnyPassesConverge | backend/services/booking/service.go:331-374 | From every reachable state whose expiries have passed, after one reap per allocator any sequence of sweeps of sufficient length is clean, whichever rows they return and however the clock goes on |
| RecoveryRun.DrainRun | backend/services/booking/service.go:352-374 | The release loop over any list with any outcomes is a run of the sweeper's calls |
| RecoveryRun.RecoveryReaches | backend/services/booking/service.go:331-374 | From every reachable state with no request in flight and all expiries passed, reaps and sweeps alone reach a clean state |
| Convergence.FullSweepIsPass | backend/services/booking/service.go:331-374 | Every complete sweep that no other request disturbs, with full batches and with ticks and reaps anywhere in it, is a pass but for the clock and the reaped holds |
| Convergence.EveryCleanUpConverges | backend/services/booking/service.go:331-374 | Every run made of ticks, reaps and at least Work / 50 complete sweeps, in any order and interleaving, ends clean once each allocator has reaped |
| Reserve.ReapOpens | backend/services/technician/reserve.go:190-193 | Deleting expired holds frees exactly the candidates that only expired holds were blocking |
| Reserve.VacantIsUnclaimed | backend/services/technician/reserve.go:188-193 | The occupation clause and the reap together, in bare bounds: only released or expired occupations start before the end and end after the start |
| Reserve.BackToBack | backend/services/technician/migrations/001_init.sql:46-50 | After a hold of [start, end) its resource is still free for every interval before or after it, touching ones included, for which it was free |
| Reserve.UnclaimedBackToBack | backend/services/technician/reserve.go:188-193 | And whatever had no claim that counts there may still be picked |
| Reserve.Occupations.Claim | backend/services/technician/reserve.go:160-205 | Pick on a possibly stale snapshot, first in the query's order; the constraint decides; a collision has a live overlapping witness |
| Reserve.Occupations.DeleteExpired | backend/services/technician/reserve.go:211-214 | Afterwards exactly this allocator's HELD rows past their expiry are gone, and nothing else has changed |
| Reserve.Occupations.ConfirmOne | backend/services/bay/reserve.go:92-115 | Succeeds if and only if the row is CONFIRMED or an unexpired hold, which it promotes in place; otherwise nothing changes |
| Reserve.Occupations.ReleaseOne | backend/services/bay/reserve.go:120-133 | A known occupation ends RELEASED, its other fields kept; an unknown id is a no-op |
| Reserve.Occupations.Reserve | backend/services/technician/reserve.go:199-220 | Whatever others write, a success is a 120 s hold that meets no live occupation of its resource, with half-open bounds written out; alone and without failures it succeeds if and only if some eligible resource has nothing in the interval but what is released or has run out, in at most two of its three attempts, without a collision |
| Reserve.Occupations.ReserveTechnician | backend/services/technician/reserve.go:156-220 | A success holds an active technician of the dealership with the skill, for exactly the skill's duration, within a shift that admits it and no absence; undisturbed it succeeds if and only if such a technician has no claim that counts in those minutes |
| Reserve.Occupations.ReserveBay | backend/services/bay/reserve.go:154-199 | The same for the active bays of the dealership and the interval the technician's answer fixed |
| Reserve.QualifiedInsideHours | backend/services/technician/reserve.go:170-182 | What the claim query accepts under the shop's latest end lies inside opening hours |
| Capacity.ServedShrinks | backend/services/bay/reserve.go:158-198 | One call takes exactly one open candidate away, or there was none |
| Capacity.FillsOneByOne | backend/services/bay/reserve.go:158-198 | Of k successive calls for one interval within the TTL exactly the first min(k, n) succeed, on distinct resources, each the hash-first of those still free |
| Capacity.BaysFill | backend/services/bay/reserve.go:158-198 | The same count for the active bays of one dealership |
| Sequential.CancelAlone | backend/services/booking/service.go:291-306 | DELETE alone, every call answered: the row is CANCELLED, both its occupations RELEASED, both flags set and nothing else changed; an unknown row is not found |
| Sequential.ConfirmHoldAlone | backend/services/booking/service.go:113-148 | POST with a hold, alone and answered, by the state of the hold: not found, unavailable, replay or conflict without a change; a HELD row is booked with both occupations CONFIRMED if and only if both can still be confirmed and no other CONFIRMED row has the key, else both are given back |
| Sequential.CreateHoldAlone | backend/services/booking/service.go:71-93 | POST /holds alone and answered: it succeeds if and only if some technician, and then some bay for the whole job, has no claim that counts; it leaves one HELD row and two holds of 120 s, every field as asked for, or nothing live |
| Sequential.ConfirmAlone | backend/services/booking/service.go:151-204 | POST without a hold, alone and answered: a CONFIRMED row under the key answers and nothing changes; else it books, leaving one CONFIRMED row and both its occupations CONFIRMED, under the same condition, or nothing live |
| Sequential.ReserveSolo | backend/services/technician/reserve.go:199-220 | The calls of a Reserve inside the protocol, undisturbed, do to the tables what the allocator alone is proved to do |
| Service.NextCall | backend/services/booking/service.go:51-374 | In the middle of any run, after any steps of requests in flight, new requests, reapers and the clock, a handler's next call is the machine's next move and the whole is again a run |
| Service.EveryRunIsScheduled | backend/services/booking/service.go:51-374 | The handlers assume nothing else of the world: what happens around a request in any run of the protocol is a world they accept |
| Service.Booking.Reserve | backend/services/technician/reserve.go:199-220 | The three-attempt loop makes the machine's moves and ends where it ends |
| Service.Booking.DeleteExpired | backend/services/technician/reserve.go:211-214 | Between two attempts: a delete that takes effect, answered or not, removes exactly this side's expired holds from what it met; the next attempt follows only if it was answered |
| Service.Booking.ReserveSaga | backend/services/booking/saga.go:93-131 | Technician, then bay, releasing the technician when the bay fails |
| Service.Booking.ReleaseBoth | backend/services/booking/saga.go:162-165 | Bay, then technician |
| Service.Booking.ConfirmBoth | backend/services/booking/saga.go:169-178 | Technician, then bay; stops at the first failure |
| Service.Booking.InsertHeld | backend/services/booking/store.go:55-77 | Inserts the HELD row; an error leads to compensation even if the row was written |
| Service.Booking.Promote | backend/services/booking/store.go:113-135 | The compare-and-set, telling a key collision from a miss |
| Service.Booking.PromoteConfirmed | backend/services/booking/service.go:213-260 | Confirms, flip, re-read and the four compensation branches are exactly the machine's |
| Service.Booking.CreateHold | backend/services/booking/service.go:71-93 | The answer is the machine's; a created row is what was asked for; if it is an error and the request's own Releases took effect, nothing it reserved is live, but for a Reserve whose answer was lost |
| Service.Booking.ConfirmWithoutHold | backend/services/booking/service.go:166-204 | The same, with replay before any Reserve: if the first call is answered and finds a row CONFIRMED under the key, there is no other call, no store changes, and the answer is the replay of this row or, for another fingerprint, a conflict; "booked" means that its own row was put on the calendar while it was underway, and while CONFIRMED the row holds both occupations if and only if no compensation reached them |
| Service.Booking.ConfirmHold | backend/services/booking/service.go:113-148 | The answer is the machine's; unless the first read finds a HELD row the answer is written out, with one more read at most and no write; "booked" is as above for the hold, and a replayed hold was on the calendar while the request was underway |
| Service.Booking.Cancel | backend/services/booking/service.go:291-306 | The answer, call by call: found and cancelled means four calls, and a flag is set whenever its Release was answered; each Release that takes effect leaves its half dead in every later state of every run; if both succeeded the row is CANCELLED and its occupations dead for good |
| Service.Booking.ReleaseCancelled | backend/services/booking/service.go:352-374 | The loop releases bay then technician and clears the ids only after both succeeded |
| Service.Booking.SweepOnce | backend/services/booking/service.go:331-347 | Sweep batch, release, list, release, stopping at the first failing query; with clock and reapers going on, but no other request, it is a pass of the recovery theorems |
| Hours.BookedInsideHours | backend/services/booking/saga.go:42-79 | An accepted interval is not empty and lies inside the opening hours of its local day |
| Hours.LocalTime | backend/services/booking/saga.go:47-59 | Local time of day is UTC moved by the offset; it repeats every day and counts from local midnight, minutes rounded down |
| Hours.WeekdaysRun | backend/services/booking/saga.go:48-51 | Weekdays run from 1 to 7 and over again, each for one local day; the epoch began on a Thursday |
| Hours.OpenExactly | backend/services/booking/saga.go:42-79 | A start is within hours, and an end not after the latest end, if and only if that weekday has hours and both lie between its opening and closing minutes |
| Hours.ShiftExactly | backend/services/technician/reserve.go:173-182 | The shift clause holds if and only if the weekday of the start has a shift that begins no later and the local time of the end is less than a minute past it |
| Hours.BookedInsideShift | backend/services/technician/reserve.go:175-182 | Closing before midnight, the shift covers the interval up to less than a minute, and entirely if and only if the start is on a whole minute or the shift has a minute to spare |
| Hours.ShiftHoldsUnlessMidnight | backend/services/technician/reserve.go:175-182 | With closing times up to midnight, the shift covers the interval up to a minute if and only if it does not end at local midnight or the shift runs to midnight |
| Hours.ShiftCoversIff | backend/services/technician/reserve.go:175-182 | With closing times up to midnight, the shift covers the whole interval if and only if it ends at local midnight and the shift does too, or it ends earlier and the start is on a whole minute or the shift has a minute to spare |
| Hours.MidnightCloseAdmitsAnyShift | backend/services/catalog/migrations/001_init.sql:12-13 | A concrete accepted interval hours outside its shift |
| Fingerprint.DecodeEncode | backend/services/booking/booking.go:88-95 | The fields can be read back from what is hashed |
| Fingerprint.EncodeInjective | backend/services/booking/booking.go:88-95 | Equal encodings of NUL-free fields mean equal fields |
| Fingerprint.CollidesIffNul | backend/services/booking/booking.go:88-95 | Some other list of as many fields has the same encoding if and only if a field contains a NUL; the prechecks (catalog ids, request URLs, time parsing, uuid columns) let no such field through |
| Fingerprint.NulCollides | backend/services/booking/booking.go:88-95 | An instance of the encoding alone: two lists with a NUL in a field that encode alike |
| Fingerprint.Compute | backend/services/booking/booking.go:88-95 | The loop hashes that encoding, and it can be decoded |
| Fingerprint.HoldNeverMatchesDirect | backend/services/booking/service.go:137-139 | A hold's fingerprint never equals a direct confirm's |
| Fingerprint.PrintNotEmpty | backend/services/booking/store.go:117-118 | A fingerprint is never empty, so it is never stored as NULL |

## Left out

- HTTP and gRPC transport, JSON, status codes, headers, logging and the gateway: no state of their own.
- Catalog: a snapshot is an input; its existence and ownership checks, the parsing of `start` and "strictly in the future" come before the modelled part of each handler.
- Calls that are delivered after their caller gave up on them (a cancelled context).
- PostgreSQL internals, isolation levels and `SKIP LOCKED`: every statement is one atomic step. A batch may return any qualifying rows up to its limit, or, in the recovery proofs, the oldest ones.
- SHA-256 is taken to be free of collisions, `hashtext` is an arbitrary order with ties broken arbitrarily, and UUIDs are fresh.
- Time-zone databases and daylight saving: zones are fixed offsets. That the dealership and the technician use one zone is a hypothesis of the hours theorems.
- The eligibility clauses (skill, shift, absence, dealership) constrain candidates in `Reserve`; in `Protocol` the claim query may pick any free resource and any end after the start, which covers every eligible pick.
- Tickers and goroutines: the sweeper and the reapers may start at any time.
- Saga.AllOrNothing: an occupation whose Reserve took effect while Booking saw an error stays HELD until its TTL, as the design accepts; the lemma says that this is the only exception.
- Reserve.Occupations.Reserve: the clock stands still during one call; in `Protocol` it may move between any two statements.
- Service: a handler that crashes does not return, so nothing is said about its answer; the protocol theorems cover its crash.
- Overlapping appointments of one vehicle, authentication, and holds that are not idempotent are accepted by the design and not excluded here.
- A technician with a shorter job who would have fitted after the bay refused is not retried by the code, and nothing is claimed about it.
