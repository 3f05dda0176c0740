# SEDSnet verification

Dafny models of the parts of SEDSnet whose behaviour is hardest to see from the
code, with proofs of what they promise. `dafny verify dfyconfig.toml` checks
everything.

| part | modules |
|---|---|
| Pressure arbitration: who loses queue space, over whole eviction runs | `LoadTable`, `LoadHistory`, `AdmissionFairness`, `EvictionRun`, `MessageTypes`, `Admission` |
| The bounded priority queue around it, and the three service orders built on it | `BoundedQueue`, `FairService`, `DeferredService`, `DeferredWait`, `BulkService` |
| Concurrent side-callback gates, as a state machine over every interleaving | `SideGates` |
| Unix time to UTC on ThreadX, and the network clock it feeds | `Calendar`, `UtcLoop`, `NetworkTime` |
| Typed logging and extraction on little- and big-endian hosts | `TypedLog` |
| Schema identities, and the generator of the embedded tables | `SchemaIdentity`, `ProtocolNames`, `SchemaTable`, `SchemaGenerator`, `SchemaReadback`, `SchemaEntries` |
| JSON snapshots and the buffers that carry them to C | `Numerals`, `Json`, `JsonRoundTrip`, `JsonPrinting`, `SnapshotKeys`, `TopologyJson`, `ClientStatsJson`, `RuntimeStatsJson`, `SnapshotFields`, `Utf8`, `CBuffer` |

Imperative code (the load table, the queue, the loops that print, pad, hash,
count days or fill a buffer) is modelled by methods and classes proved against
functions; what the code promises is then proved of those functions. Shared
vocabulary is in `Prelude`.

## What the proofs found

Where a wanted property is false of the code, the code is kept, a lemma gives
an input on which it fails, and another says exactly when it holds.

- A refused push can still evict (`Admission.RefusedPushStillEvicts`). It is
  harmless if and only if nothing yields (`Admission.RefusalIsHarmlessIff`).
- Beyond 32 message types an owner can lose a type while another repeats
  (`MessageTypes.TypeCanVanishBeyondTable`). Which turns and which runs keep
  every type is told by the queue beforehand (`MessageTypes.TurnKeepsTypesIff`,
  `MessageTypes.RunKeepsTypesIff`).
- A queue test (src/queue.rs:1362) asks for a bounded turn of every waiting
  band. The plain selector gives one to band 0, and to band 255 under a burst
  allowance, and to no other (`FairService.BoundedWaitIff`).
- The transmit path reaches that selector through reservations only, and there
  no band has a bounded wait in general: a refused reservation shuts the others
  out (`DeferredWait.RefusalsStarve`), and one whose items stay ineligible can
  shut out band 255 itself (`DeferredWait.BlockedReservationStarvesControl`).
  While everything queued is eligible, exactly band 255 under a burst allowance
  has one (`DeferredWait.DeferredWaitIff`). What is bounded are the retries of
  the owed band (`DeferredService.OwedBandIsTriedInEveryWindow`).
- 29 February is stored as month 3, day 0 (`UtcLoop.LeapDay2000`), and the network
  clock refuses it (`UtcLoop.DateIsGregorianIffNotLeapDay`, `NetworkTime.ClockAcceptsIffNotLeapDay`).
- Little- and big-endian hosts differ on two kinds of request
  (`TypedLog.ZeroSizeDiverges`, `TypedLog.OversizedDiverges`), and on no other
  (`TypedLog.HostsAgreeIff`).
- On a big-endian host extraction swaps bytes. The comment at
  src/macros.rs:156 speaks of little-endian reads; the code reads natively
  (`TypedLog.BigHostSwapsOne`, `TypedLog.BigHostRecoversIffPalindromes`).
- The comment at src/c_api.rs:488 says a null buffer always answers the size;
  the code answers bad-argument when the length is not zero
  (`CBuffer.NullBufferRefused`, `CBuffer.NullBufferAnswersIff`).
- Names one byte apart never collide, which is stronger than the hash's
  construction suggests (`SchemaIdentity.OneByteApartNeverCollide`).

## Model

| member | source | states |
|---|---|---|
| `LoadTable.Position` | src/admission_fairness.rs:82-86 | The first slot of a sender, or proof that no slot is theirs. |
| `LoadTable.Heaviest` | src/admission_fairness.rs:107-111 | Among the accepted slots one of greatest byte load, and of several the last (what `max_by_key` returns). |
| `LoadTable.Loads.Record` | src/admission_fairness.rs:81-99 | The in-place update of the fixed array, length and overflow flag computes one step of the abstract table, for every array state. |
| `LoadHistory.CatalogRefinesMap` | src/admission_fairness.rs:81-99 | After any sequence of records the slots are the first 32 distinct senders in first-seen order, each with its exact count and its byte sum capped at usize::MAX; overflow is set exactly when more than 32 senders were seen. |
| `LoadHistory.CatalogSlotsDistinct` | src/admission_fairness.rs:81-99 | No sender ever owns two slots. |
| `LoadHistory.SlotsAreSummaries` | src/admission_fairness.rs:81-99 | Without overflow the slots are exactly the per-sender summaries of the record history, so the table answers as an unbounded map would. |
| `LoadHistory.SelectorsRefuseBeyondCatalogue` | src/admission_fairness.rs:103-125 | Once more than 32 distinct senders were recorded both selectors refuse. |
| `LoadHistory.QueueVictimOfHistory` | src/admission_fairness.rs:103-119 | The victim in terms of the history alone: a sender recorded more than once with the greatest capped total, or, if nobody repeats, the incoming sender when it was recorded. |
| `LoadHistory.DominantOtherOfHistory` | src/admission_fairness.rs:120-135 | Dominance in terms of the history alone: another sender, recorded more than once, with a strictly greater capped total than the asker and one no such sender exceeds; refused exactly when there is none. |
| `LoadHistory.DominanceIsOneWay` | src/admission_fairness.rs:120-135 | If b dominates a then nobody dominates b: pressure cannot ping-pong. |
| `LoadHistory.SelectorsAgree` | src/admission_fairness.rs:103-135 | Whenever the queue victim is another sender with strictly more bytes than a, it is the sender that dominates a. |
| `LoadHistory.ChoiceIgnoresOrderIffUnique` | src/admission_fairness.rs:107-111 | A heaviest-slot choice is the same for every permutation of the records if and only if the heaviest accepted slot is unique. |
| `LoadHistory.QueueVictimIgnoresOrderIffUnique` | src/admission_fairness.rs:103-119 | Record order does not matter to the queue victim if and only if the heaviest repeated sender is unique. |
| `LoadHistory.DominantOtherIgnoresOrderIffUnique` | src/admission_fairness.rs:120-135 | Record order does not matter to dominance if and only if the heaviest outweighing sender is unique. |
| `AdmissionFairness.Lowest` | src/admission_fairness.rs:189-198 | The earliest of the lowest-priority accepted items (what `min_by_key` on (priority, index) returns). |
| `AdmissionFairness.SelectVictim` | src/admission_fairness.rs:139-199 | The two scanning loops over real load tables and the final minimum search compute the two-level choice (owner, then stream, then index) and the `selected` cell it leaves. |
| `EvictionRun.FreshChoice` | src/admission_fairness.rs:157-171 | A freshly chosen owner holds evictable items, and at least two unless it is the incoming owner. |
| `EvictionRun.ShedOwnerIsHeaviest` | src/admission_fairness.rs:139-171 | Told from the queue alone: if any owner has two evictable items, the owner shed has two, and none of those owners holds more bytes in evictable items. |
| `EvictionRun.ShedStreamIsHeaviest` | src/admission_fairness.rs:172-188 | The same of the message stream shed within that owner. |
| `EvictionRun.IndexExistsIffHeld` | src/admission_fairness.rs:172-198 | An index is returned exactly while the owner still holds an evictable item, whatever its streams and however full the stream table. |
| `EvictionRun.RunSheds` | src/admission_fairness.rs:139-199 | A run sharing one `selected` cell can take n turns exactly when the chosen owner held at least n evictable items; every turn removes one of them and nothing else. |
| `EvictionRun.PressureShedsOneOwner` | src/admission_fairness.rs:139-199 | Over any run: only items of one owner and of at most the incoming priority leave; that owner repeated or is the incoming one; all other items survive in order; a further turn is possible exactly while that owner still holds some. |
| `EvictionRun.ProtectedFramesSurvive` | src/admission_fairness.rs:52-61 | A frame with any of the six marks (unknown type, priority or transport priority of 200 and up, peer-to-peer, reliable, frozen) is in the queue after any run and never among the evicted. |
| `Admission.UnprotectedFramesLeave` | src/admission_fairness.rs:52-61 | The other side: a frame with none of the six marks, from the sender that is shed and at most the incoming priority, is evicted by a full run. |
| `Admission.RunConserves` | src/queue.rs:919-939 | Over any run, what is left and what was evicted are together exactly the queue before it. |
| `EvictionRun.ByPriorityIsStableSort` | src/admission_fairness.rs:197 | The reference order used below is a stable sort by priority. |
| `EvictionRun.StreamsYieldInOrder` | src/admission_fairness.rs:189-198 | Over a whole run the items evicted from an (owner, stream) class followed by those still queued, sorted, are that class in (priority, arrival) order, although the stream is chosen anew each turn. |
| `MessageTypes.RepeatedTypeYields` | src/admission_fairness.rs:184-188 | While some message type of the owner repeats, a turn removes no type entirely. |
| `MessageTypes.TypesSurviveWhileAnyRepeats` | src/admission_fairness.rs:172-198 | With n typed items over d <= 32 types the first n - d evictions keep all d types represented. |
| `MessageTypes.ThinnedToBestOfEachType` | src/admission_fairness.rs:172-198 | After exactly those n - d evictions each type is left with one item: the last of its class in (priority, arrival) order. |
| `MessageTypes.BeyondTableIgnoresTypes` | src/admission_fairness.rs:172-198 | With more than 32 types the stream table refuses and plain priority order decides among all of the owner's items. |
| `MessageTypes.TurnKeepsTypesIff` | src/admission_fairness.rs:172-198 | One turn keeps every type of its owner if and only if the queue before it says so: up to 32 types, some type repeats or the turn falls on an untyped item; beyond, the owner's first lowest item is not the only one of its type. |
| `MessageTypes.RunKeepsTypesIff` | src/admission_fairness.rs:172-198 | A run of n turns keeps every type if and only if: up to 32 types, n plus the number of types is at most the number of items; beyond, every type occurs in the owner's (priority, arrival) ranking after its first n items, which is then exactly what is left. |
| `MessageTypes.TypeCanVanishBeyondTable` | src/admission_fairness.rs:172-198 | A concrete sender with 33 types, one queued twice, that loses a type entirely on the first turn. |
| `BoundedQueue.InsertedKeepsOrder` | src/queue.rs:856-889 | Priority insertion keeps the queue in descending priority order. |
| `BoundedQueue.InsertedAppendsToBand` | src/queue.rs:856-889 | Insertion appends to its own priority band and leaves every other band as it was: first in, first out within a band. |
| `BoundedQueue.BoundedDeque.RemovePos` | src/queue.rs:606-610 | Removal takes out exactly the indexed item and keeps the byte count exact. |
| `BoundedQueue.Grown` | src/queue.rs:679-696 | Growth asks for more than the present capacity and never for more than the element limit. |
| `BoundedQueue.GrownIsLeast` | src/queue.rs:679-696 | It asks for the least capacity above the present one that is at least the growth ratio times it, cut at the element limit. |
| `BoundedQueue.BoundedDeque.EnsureRoomForOne` | src/queue.rs:652-718 | Which of its three ways makes room (free slot kept, oldest dropped, capacity grown), with the whole resulting state, and that success leaves a free slot. |
| `BoundedQueue.BoundedDeque.PartitionPoint` | src/queue.rs:883-886 | The binary search finds the end of the band. |
| `BoundedQueue.BoundedDeque.InsertPrioritized` | src/queue.rs:856-889 | The two shortcuts and the binary-search branch all give the specified insertion and keep limits and byte count. |
| `BoundedQueue.BoundedDeque.PushSelect` | src/queue.rs:893-942 | The admission loop is a run of the selector: the evicted items are that run, an admitted item is inserted in order into what is left, all limits hold throughout. A refusal leaves exactly the residue of a full run, and the queue as it was if and only if nothing yields. An item is unavailable or too large exactly when the capacity is zero or its cost exceeds the byte limit, and one that fits is admitted with nothing evicted. Unless the allocator refused to grow the queue, it admits exactly when `Admits` says so, and evicts nothing exactly when there was room or nothing yields. |
| `Admission.UnownedRunSheds` | src/admission_fairness.rs:153-155 | Runs for an item without an owner (control, reliable, frozen): they evict from the end of the queue, last first, exactly as far as nothing outranks the item. |
| `Admission.UnownedVictimsRankLower` | src/queue.rs:925-935 | Such a run evicts nothing of a higher priority, and for an item of priority 254 nothing of its own. |
| `BoundedQueue.SteadfastOfOrdered` | src/queue.rs:919-939 | On a queue in priority order such an item can displace exactly the items that do not outrank it. |
| `Admission.ExhaustedRunDrainsOwner` | src/queue.rs:919-939 | A run that can go no further has removed every evictable item of the chosen owner and nothing else. |
| `Admission.ExhaustedRunLeaves` | src/queue.rs:919-939 | Every run ends, and what it leaves is determined by the queue and the item, for owned and unowned items alike. |
| `Admission.AdmitsIffResidueSuffices` | src/queue.rs:919-939 | Admission succeeds if and only if the item fits now or fits in what a full run leaves, for owned and unowned items; a caller can check both before the call. |
| `Admission.ResidueIsWholeIff` | src/queue.rs:919-939 | A full run changes nothing if and only if nothing yields: for an owned item more than 32 senders at or below its priority, or no repeated sender and none of its own; otherwise an empty queue or a last item that outranks it. |
| `Admission.RefusalIsHarmlessIff` | src/queue.rs:925-935 | A refused push leaves the queue as it was if and only if nothing yields. |
| `Admission.EvictsNothingIff` | src/queue.rs:919-939 | The loop evicts nothing if and only if there was room at once or nothing yields. |
| `Admission.RefusedPushStillEvicts` | src/queue.rs:925-935 | A concrete queue on which a refused push has nevertheless evicted two items. |
| `FairService.ScanBelow` | src/queue.rs:512-532 | The loop finds the first ready item of a lower band nearest below the cursor, wrapping around the 256 levels. |
| `FairService.Service.SelectFront` | src/queue.rs:492-549 | One selection: the served index, the burst count and the cursor it leaves. |
| `FairService.ServiceIsFifo` | src/queue.rs:492-549 | Arrival order within a band: no ready item of the served band stands before the served one. |
| `FairService.FrontIsServed` | src/queue.rs:533-546 | The first ready item is served while the burst allowance lasts or nothing ready waits below it, and what that does to the allowance. |
| `FairService.LowerTurnRotates` | src/queue.rs:512-541 | A lower turn serves the highest waiting band below the cursor, or, when none is below it, the highest waiting lower band; the allowance starts again and the cursor moves to that band. |
| `FairService.LowerTurnsRecur` | src/queue.rs:492-549 | While something waits below the front, exactly every (maxBurst + 1)-th selection is a lower turn. |
| `FairService.UnservedCostsPatience` | src/queue.rs:492-549 | A selection that passes over a waiting band uses up part of a bounded budget, exactly unless it overtakes the band from the front without bringing the rotation nearer. |
| `FairService.ServedOrOvertaken` | src/queue.rs:492-549 | A band that waits through more selections than its patience is served or overtaken, whatever else arrives or leaves. |
| `FairService.LowestBandIsServed` | src/queue.rs:492-549 | The lowest waiting band is always served within 256 (maxBurst + 1) selections. |
| `FairService.HighestBandIsServed` | src/queue.rs:492-549 | With a burst allowance band 255 waits for one lower turn at most. |
| `FairService.MiddleBandCanStarve` | src/queue.rs:512-536 | Every other band can wait forever: an arbitrarily long realisable history in which it is ready throughout and never served. |
| `FairService.BoundedWaitIff` | src/queue.rs:492-549 | For every burst allowance and band: some number of selections bounds the wait over all histories if and only if the band is 0, or is 255 and the allowance is positive; the same holds of realisable histories of a fresh service. |
| `DeferredService.DeferredQueue.SelectFrontDeferred` | src/queue.rs:379-442 | The deferred selection and the whole state it leaves, every flag included. |
| `DeferredService.DeferredQueue.FinishDeferredTurn` | src/queue.rs:448-484 | What the outcome of an attempt does to the reservation and the turn. |
| `DeferredService.DeferredQueue.CancelDeferredTurn` | src/queue.rs:444-446 | Cancelling drops the reservation and leaves an attempt under way marked as such. |
| `DeferredService.ReservationEndsIff` | src/queue.rs:379-484 | A reservation survives an event, with its band, exactly unless its own attempt was admitted or its item is gone, its band has left the queue, or it was cancelled. |
| `DeferredService.ReservationIsKept` | src/queue.rs:379-484 | Over any run of selections, outcomes and cancellations an owed band keeps its reservation until one of those endings. |
| `DeferredService.TurnIsOwnedIff` | src/queue.rs:432-441 | A selection without a reservation makes one exactly when something queued, eligible or not, ranks above the pick; otherwise it spends the turn at once. |
| `DeferredService.LowerTurnIsReserved` | src/queue.rs:432-439 | A lower turn is handed out with the turn state as before; only admission moves the rotation on, and a refusal keeps the band owed with a new control allowance. |
| `DeferredService.PickIsFifo` | src/queue.rs:379-442 | Arrival order within a band for every pick, reserved or not. |
| `DeferredService.NestedAdmissionUsesTheOpportunity` | src/queue.rs:448-484 | A refused attempt opens a new allowance, unless another item was admitted while it was under way. |
| `DeferredService.CancelledAttemptSpendsNothing` | src/queue.rs:444-484 | An attempt cancelled under way neither spends the turn nor leaves a reservation, and no other is made until it has finished. |
| `DeferredService.FallbackKeepsAllowance` | src/queue.rs:413-430 | Fallback work beside a reservation never gives back any of the allowance. |
| `DeferredService.OwedBandIsTriedInEveryWindow` | src/queue.rs:391-412 | However often it is refused, an owed band with work ready gets an attempt in every maxBurst + 1 consecutive rounds, whatever else is queued. |
| `DeferredWait.OwedShutsOutOthers` | src/queue.rs:391-412 | While an owed band has an item eligible, nothing but it and band 255 is picked. |
| `DeferredWait.RefusalsStarve` | src/queue.rs:379-484 | With refusals every band but 255, and 255 too without a burst allowance, can be passed over forever from a reachable state, every queued item being eligible. |
| `DeferredWait.HighestRound` | src/queue.rs:379-484 | Band 255 is picked while an allowance is left, and any other pick opens a new one unless the owed band's items are queued but not eligible. |
| `DeferredWait.BlockedReservationStarvesControl` | src/queue.rs:407-430 | When an owed band's items stay ineligible, a spent allowance is never renewed and band 255 can be passed over forever. |
| `DeferredWait.EligibleHighestIsPicked` | src/queue.rs:379-484 | While every queued item is eligible, band 255 with an allowance is picked within two rounds of every reachable state. |
| `DeferredWait.DeferredWaitIff` | src/queue.rs:379-484 | On the transmit path no band has a bounded wait in general; while every queued item is eligible, a band has one if and only if it is 255 and the allowance is positive. |
| `BulkService.PopFrontBulkFair` | src/queue.rs:288-321 | The receive path's pop, scan included. |
| `BulkService.PopServesAnEnd` | src/queue.rs:288-321 | The front yields exactly when its priority is below 200, it is not of the lowest band and the allowance is used up; every pop takes the oldest item of its band, and only the first and last bands are ever served. |
| `BulkService.LowerTurnsRecur` | src/queue.rs:288-321 | While bulk waits behind higher bulk, exactly every (maxBurst + 1)-th pop passes the front by. |
| `BulkService.LowestIsServedInEveryWindow` | src/queue.rs:288-321 | While no control item is at the front the lowest band is served in every maxBurst + 1 consecutive pops, whatever arrives. |
| `SideGates.StepKeepsFlags` | src/lock.rs:78-98 | Every atomic step of every thread, guards dropped in any order, keeps: a flag is set exactly while one guard holds that gate. |
| `SideGates.StepKeepsCounter` | src/lock.rs:78-98 | Every atomic step keeps the counter equal to the guards between increment and decrement, modulo the word size. |
| `SideGates.GateHasOneHolder` | src/lock.rs:78-98 | In every reachable state of any number of threads and sides a gate has at most one live guard, and its flag is set exactly when it has one. |
| `SideGates.ReentryIsRefused` | src/lock.rs:78-81 | While a callback is on a stack, no thread can enter its side again and the attempt changes nothing. |
| `SideGates.ThreadCanStep` | src/lock.rs:78-98 | No thread is ever stuck: one with a live guard can always take the next step of its innermost one. |
| `SideGates.OneWindowPerThread` | src/lock.rs:78-98 | Where guards are scoped, at most one guard of a thread is in a window between its two atomic steps. |
| `SideGates.ActivityIsExact` | src/lock.rs:78-98 | The counter is the number of running callbacks plus the number of guards in the release-then-decrement window. |
| `SideGates.ActiveWhileAnyCallbackRuns` | src/lock.rs:88-90 | `is_active` is true whenever any callback is on a stack. |
| `SideGates.CounterNeverWraps` | src/lock.rs:82-97 | No decrement underflows and no increment overflows in any reachable state. |
| `SideGates.FlagsAndCounterBalance` | src/lock.rs:78-98 | Set flags plus windows after release equal the counter plus windows before the increment. |
| `SideGates.DrainsToQuiet` | src/lock.rs:93-97 | From every reachable state the live guards can finish, each thread innermost first, in exactly the number of steps owed, to all gates free and a zero counter. |
| `SideGates.NoLongerThanOwed` | src/lock.rs:93-97 | Every schedule without new entries pays one owed step per action, so none can go on longer. |
| `SideGates.QuietIsStart` | src/lock.rs:78-98 | A reachable state without guards is the initial one: every flag clear and the counter zero. |
| `SideGates.WindowsAreObservable` | src/lock.rs:79-97 | Both windows are real: a gate can be taken while `is_active` is false, and `is_active` can be true with all gates free. |
| `UtcLoop.UnixMsToUtc` | rtos-example-code/threadx_telemetry.c:81-128 | The year loop, the month loop and the casts compute `ToUtc` for every 64-bit input, terminate, and fail exactly when an output is missing. |
| `UtcLoop.YearFitsI32` | rtos-example-code/threadx_telemetry.c:96-106 | The year of every 64-bit input fits int32. |
| `UtcLoop.DateIsRight` | rtos-example-code/threadx_telemetry.c:96-121 | The stored date denotes the input's day in an independent Gregorian calendar, and is a calendar date except on day 59 of a leap year, where month 3, day 0 is stored. |
| `UtcLoop.UtcRecombines` | rtos-example-code/threadx_telemetry.c:88-127 | Date and time of day recombine to the input exactly, for every 64-bit input. |
| `UtcLoop.DateIsGregorianIffNotLeapDay` | rtos-example-code/threadx_telemetry.c:107-121 | The stored date is Gregorian if and only if the input does not fall on 29 February. |
| `UtcLoop.LeapDay2000` | rtos-example-code/threadx_telemetry.c:107-121 | The concrete case: 951782400000 ms, midnight of 29 February 2000, is stored as month 3, day 0. |
| `UtcLoop.UtcIsStrictlyIncreasing` | rtos-example-code/threadx_telemetry.c:96-127 | The seven stored fields are strictly increasing lexicographically in the input, across the 29 February anomaly too. |
| `NetworkTime.DaysFromCivilIsDayNumber` | src/timesync.rs:623-634 | The era formula gives the calendar's day number, for every year, past and future. |
| `NetworkTime.CivilFromDaysIsTheDate` | src/timesync.rs:636-651 | The inverse formula gives the calendar date of every day, and refuses exactly where the year exceeds int32. |
| `NetworkTime.ClockCountsMilliseconds` | src/timesync.rs:266-295 | The clock accepts exactly a time of day on a day 1 to 31 of a month 1 to 12 whose instant is a 64-bit count of milliseconds since 1970, and returns that count by the calendar. |
| `NetworkTime.ClockAcceptsIffNotLeapDay` | src/timesync.rs:266-295 | Feeding the ThreadX fields to the network clock gives back the input, except on 29 February, where the clock refuses them. |
| `NetworkTime.ConvertersAgree` | src/timesync.rs:636-651 | The counting loops and the closed formula produce the same date for every other day. |
| `TypedLog.PadBytes` | src/c_api.rs:4648-4693 | The zeroed buffer with the copied prefix is the source cut or zero-extended to the size. |
| `TypedLog.Vectorize` | src/c_api.rs:5549-5584 | The element loop reads each value from its own bytes in the host's order, and refuses an empty request. |
| `TypedLog.EncodeSlice` | src/router.rs:2394-2404 | The slot loop writes the little-endian image of each value in turn. |
| `TypedLog.LogBytes` | src/c_api.rs:4699-4741 | The byte logger's outcome for every element type and length. |
| `TypedLog.LogTypedLittle` | src/c_api.rs:4804-4852 | The native fast path's outcome, error paths included. |
| `TypedLog.LogTypedBig` | src/c_api.rs:4853-4944 | The pad, decode and re-encode path's outcome, error paths included. |
| `TypedLog.MemoryRoundTrip` | src/macros.rs:134-145 | Reading an encoded value list back in the same byte order returns it, for every width. |
| `TypedLog.PaddedMemory` | src/c_api.rs:4648-4693 | Padding or cutting bytes to a whole number of elements is padding or cutting the value list with zero values. |
| `TypedLog.StaticPayload` | src/c_api.rs:4804-4944 | Both hosts log, for a static type, the little-endian encodings of the first size/width values followed by zero elements. |
| `TypedLog.DynamicPayload` | src/c_api.rs:4804-4944 | Both hosts log, for a dynamic type, the little-endian encodings of all values in order. |
| `TypedLog.LoggedIff` | src/c_api.rs:4879-4944 | A request is logged exactly when its kind and width are among the twelve listed ones, it is addressable, and it suits the type; for each host. |
| `TypedLog.LoggedByte` | src/c_api.rs:4804-4944 | Byte j of element i on the wire, from either host, is the value's base-256 digit j, and zero past the values given. |
| `TypedLog.HostsAgreeIff` | src/c_api.rs:4804-4944 | Endianness independence for all inputs: both hosts have the same outcome if and only if the request is not one of two listed cases (a zero-size static type, or a dynamic request beyond isize::MAX bytes). |
| `TypedLog.ZeroSizeDiverges` | src/c_api.rs:4804-4944 | One concrete case: a zero-size static type and no values is logged on one host and refused on the other. |
| `TypedLog.OversizedDiverges` | src/c_api.rs:4804-4944 | The other: isize::MAX + 1 one-byte values of a dynamic type are refused on one host and abort the other. |
| `TypedLog.GetTyped` | src/c_api.rs:5600-5667 | What extraction reports and writes, for every width, room and payload length. |
| `TypedLog.ExtractionUndoesLogging` | src/c_api.rs:5586-5667 | On a little-endian host extraction returns the logged list, truncated or zero-extended to the type's element count. |
| `TypedLog.DynamicExtraction` | src/c_api.rs:5586-5667 | For a dynamic type extraction returns exactly the logged list. |
| `TypedLog.ShortRoomWritesNothing` | src/c_api.rs:5600-5667 | With too little room the needed count is reported and nothing is written. |
| `TypedLog.BigHostRecoversIffPalindromes` | src/c_api.rs:5586-5597 | On a big-endian host the extraction call returns the logged list if and only if every value reads the same byte-reversed. |
| `TypedLog.BigHostSwapsOne` | src/c_api.rs:5586-5597 | The concrete case: 1 as a two-byte value comes back as 256. |
| `SchemaIdentity.HashBytes` | schema_identity.py:11-13 | The byte loop computes the hash of the whole name. |
| `SchemaIdentity.ResolveId` | schema_identity.py:7-21 | The tool's resolution, every rejection included. |
| `SchemaIdentity.GeneratedRange` | schema_identity.py:14 | Generated identities lie between 0x10000 and 0x0FFFFFFF for every name. |
| `SchemaIdentity.DefaultAlwaysResolves` | schema_identity.py:7-21 | Every non-empty name resolves without an explicit identity, application names into the generated range. |
| `SchemaIdentity.ReservedHasOneOwner` | schema_identity.py:18-20 | A reserved identity is only ever resolved for the one protocol name that owns it. |
| `SchemaIdentity.ResolvedIdIsAccepted` | schema_identity.py:15-21 | An identity that was returned is accepted when passed back explicitly. |
| `SchemaIdentity.ResolversAgree` | src/schema_identity.rs:3-112 | The firmware's dispatch on the hash with a byte comparison resolves as the tool's table lookup does, in any coherent namespace. |
| `SchemaIdentity.SharedIdentityIff` | schema_identity.py:14 | Two hashes give one identity if and only if they agree on the low 28 bits, bit 16 aside. |
| `SchemaIdentity.OneByteApartNeverCollide` | schema_identity.py:11-14 | Names of equal length differing in exactly one byte never share a generated identity. |
| `ProtocolNames.TablesAreCoherent` | src/schema_identity.rs:3-47 | All 22 hash constants of the dispatch tables are the hashes of the names beside them, no two alike within a namespace. |
| `ProtocolNames.EveryNameResolvesAlike` | src/schema_identity.rs:80-112 | For every name and explicit identity, in both namespaces, tool and firmware resolve alike. |
| `ProtocolNames.TypeIdentities` | src/schema_identity.rs:18-39 | The identity of each of the 19 protocol data types, by name. |
| `ProtocolNames.EndpointIdentities` | src/schema_identity.rs:3-9 | The identity of each of the 3 protocol endpoints, by name. |
| `ProtocolNames.ExplicitIsHonouredIff` | src/schema_identity.rs:80-112 | An application name is given any explicit identity outside the protocol's (types 0 to 18, endpoints 200 to 202) and no other; a protocol name only its own. |
| `SchemaTable.ReadRow` | build.rs:15-28 | An entry that is read has the identity its sort key has. |
| `SchemaGenerator.Register` | build.rs:66-75 | The two hash-map assertions together accept exactly the rows whose identity and name are new. |
| `SchemaGenerator.EnterAliases` | build.rs:79-83 | The alias insertions accept exactly the rows that share no alias with an earlier one. |
| `SchemaGenerator.DirectoryAnswers` | build.rs:162-167 | The alias map answers as a search of the accepted endpoints. |
| `SchemaGenerator.EmitEndpoints` | build.rs:62-92 | The endpoint loop accepts exactly the lists without a collision, prints each row in order and leaves the alias map of those rows. |
| `SchemaGenerator.EmitTypes` | build.rs:94-181 | The type loop accepts exactly the readable lists without a collision and prints each row, targets resolved. |
| `SchemaGenerator.SortById` | build.rs:58-61 | A sorted permutation; nothing more is assumed of the unstable sort. |
| `SchemaGenerator.Generate` | build.rs:34-183 | The generator's text for every schema, and the cases where it stops the build: for entries that all have identities it is the text of any sorted arrangement. |
| `SchemaGenerator.AcceptedTablesAreStrict` | build.rs:55-183 | Accepted tables have strictly increasing identities and pairwise different names. |
| `SchemaGenerator.ArrangementsAgree` | build.rs:58-61 | Two sorted arrangements of the same entries are both refused or give the same rows. |
| `SchemaGenerator.ArrangedTextsAgree` | build.rs:55-183 | Whatever sorted order the unstable sorts leave, the result is the same. |
| `SchemaGenerator.GenerationIgnoresOrder` | build.rs:34-183 | Order independence of the generator: for any permutation of either array, keyed or not, sorted or not, both runs are refused or write the same text. |
| `SchemaReadback.EndpointReadsBack` | build.rs:84-90 | An independent reader finds in a printed endpoint line the identity, name and link-local flag of its row, each at its own name, whatever follows. |
| `SchemaReadback.TypeReadsBack` | build.rs:173-180 | It finds in a printed type line the identity, name, element, target identities in order, reliability, priority and encryption of its row. |
| `SchemaReadback.DocumentReadsBack` | build.rs:34-183 | It finds in a whole generated text both tables, every row in order and nothing else. |
| `SchemaReadback.EmptyTablesReadBack` | build.rs:39-44 | The text for a build without a schema reads as two empty tables. |
| `SchemaEntries.ReliabilitySpelled` | build.rs:144-149 | The three reliability spellings and their variants; every other is refused. |
| `SchemaEntries.EncryptionSpelled` | build.rs:151-156 | The eleven encryption spellings and their variants, and the default without one; every other is refused. |
| `SchemaEntries.ElementSpelled` | build.rs:106-139 | The class and data type spellings, the two kinds and the default count; every other is refused. |
| `SchemaEntries.TypeAcceptedIff` | build.rs:96-172 | A type entry is accepted as a row if and only if its fields say what the row holds, spelling by spelling and default by default. |
| `SchemaEntries.EndpointAcceptedIff` | build.rs:63-84 | An endpoint entry is accepted if and only if it has an identity; its row then has its name, its link-local flag (either spelling) and its aliases. |
| `SchemaEntries.TargetResolves` | build.rs:160-169 | A target stands for the configured endpoint that answers to it by name or alias, and for the default identity of its name where none does. |
| `SchemaEntries.EmittedTablesAreFaithful` | build.rs:55-183 | Whatever is emitted reads back as one definition per entry, each saying what its entry says. |
| `SchemaEntries.GeneratedTablesAreFaithful` | build.rs:34-183 | Whatever the generator writes reads back as the entries of the configuration, rearranged by identity, and nothing else. |
| `JsonPrinting.PushEscaped` | src/c_api.rs:520-536 | The escaping loop appends exactly the canonical string literal. |
| `JsonRoundTrip.CharsRoundTrip` | src/c_api.rs:520-536 | An escaped string decodes to the original whatever precedes or follows. |
| `JsonRoundTrip.StringRoundTrip` | src/c_api.rs:520-536 | A pushed literal ends at its own closing quote, whatever follows, and decodes to the original. |
| `JsonRoundTrip.EscapesAreMinimal` | src/c_api.rs:522-534 | The escapes spelled out: two characters for the five common ones, lower-case hexadecimal for the other control characters, nothing for the rest. |
| `JsonRoundTrip.RoundTrip` | src/c_api.rs:539-725 | Parsing the canonical text of any tree returns the tree and the text after it. |
| `JsonRoundTrip.TextDeterminesTree` | src/c_api.rs:539-725 | Different trees have different texts. |
| `JsonRoundTrip.TextIsClean` | src/c_api.rs:529-531 | No control character, U+0000 included, appears raw in a document. |
| `JsonPrinting.PushNames` | src/c_api.rs:562-576 | The name array, comma by comma, with the `endpoint_<id>` fallback. |
| `JsonPrinting.PushNumbers` | src/c_api.rs:552-561 | The number array, comma by comma. |
| `JsonPrinting.PushStrings` | src/c_api.rs:577-592 | The string array, comma by comma. |
| `JsonPrinting.PushKey` | src/c_api.rs:600-608 | A member piece is accepted only with the comma, quotes and colon its position needs; the text then awaits that member's value. |
| `JsonPrinting.EndArrayNum` | src/c_api.rs:698-704 | A piece that closes an array and names the number after it. |
| `TopologyJson.PushBoard` | src/c_api.rs:593-610 | The pieces of a router object, commas, quotes and braces as the source writes them around each name, add up to the canonical text of its tree. |
| `TopologyJson.PushAnnouncer` | src/c_api.rs:670-705 | The pieces of an announcer object with its nested routers, the closing bracket joined to the next name, add up to the canonical text of its tree. |
| `TopologyJson.PushRoute` | src/c_api.rs:646-715 | The pieces of a route object with its nested announcers, the closing bracket joined to the next name, add up to the canonical text of its tree. |
| `TopologyJson.TopologyToJson` | src/c_api.rs:539-725 | The topology printer emits exactly the canonical text of the snapshot's tree, for any nesting and any strings. |
| `TopologyJson.TopologyExportDetermines` | src/c_api.rs:539-725 | Two different topologies never export the same document: no field is dropped or merged. |
| `ClientStatsJson.ClientStatsToJson` | src/c_api.rs:728-829 | The client statistics printer emits exactly the canonical text of the snapshot's tree. |
| `ClientStatsJson.ClientStatsExportDetermines` | src/c_api.rs:728-829 | Two different client statistics never export the same document. |
| `RuntimeStatsJson.PushSide` | src/c_api.rs:875-1010 | A side object with its 41 fields, adaptive block and type counters is the canonical text of its tree. |
| `RuntimeStatsJson.RuntimeStatsToJson` | src/c_api.rs:841-1161 | The runtime statistics printer emits exactly the canonical text of the snapshot's tree. |
| `RuntimeStatsJson.RuntimeStatsExportDetermines` | src/c_api.rs:841-1161 | Two different runtime statistics never export the same document. |
| `SnapshotFields.TopologyExport` | src/c_api.rs:616-724 | The printed topology parses, and under each member name stands the part of the snapshot of that name. |
| `SnapshotFields.BoardFields` | src/c_api.rs:596-608 | What stands under each member name of a router. |
| `SnapshotFields.LinkFields` | src/c_api.rs:636-643 | What stands under each member name of a link: its source under `source`, its target under `target`. |
| `SnapshotFields.LinkEnds` | src/c_api.rs:632-644 | All the way down: parsing the printed text, taking element i of `links` and looking up `source` and `target` gives the ends of link i. |
| `SnapshotFields.AnnouncerFields` | src/c_api.rs:673-704 | What stands under each member name of an announcer. |
| `SnapshotFields.RouteFields` | src/c_api.rs:650-713 | What stands under each member name of a route. |
| `SnapshotFields.ClientStatsExport` | src/c_api.rs:794-828 | The printed client statistics parse, and what stands under each member name. |
| `SnapshotFields.RuntimeStatsExport` | src/c_api.rs:873-1160 | The printed runtime statistics parse, and what stands under each member name. |
| `SnapshotFields.SideFields` | src/c_api.rs:879-1010 | What stands under each of the 41 member names of a side. |
| `SnapshotFields.AdaptiveFields` | src/c_api.rs:961-981 | What stands under each member name of the adaptive block. |
| `SnapshotFields.TypeStatsFields` | src/c_api.rs:984-1008 | What stands under each member name of a type counter. |
| `SnapshotFields.RouteModeFields` | src/c_api.rs:1016-1025 | What stands under each member name of a route mode. |
| `SnapshotFields.RouteOverrideFields` | src/c_api.rs:1031-1042 | What stands under each member name of a route override. |
| `SnapshotFields.TypedOverrideFields` | src/c_api.rs:1048-1063 | What stands under each member name of a typed override. |
| `SnapshotFields.RouteWeightFields` | src/c_api.rs:1069-1082 | What stands under each member name of a route weight. |
| `SnapshotFields.RoutePriorityFields` | src/c_api.rs:1088-1101 | What stands under each member name of a route priority. |
| `SnapshotFields.QueuesFields` | src/c_api.rs:1104-1123 | What stands under each member name of the queue block. |
| `SnapshotFields.ReliableFields` | src/c_api.rs:1125-1138 | What stands under each member name of the reliability block. |
| `SnapshotFields.DiscoveryFields` | src/c_api.rs:1139-1151 | What stands under each member name of the discovery block. |
| `SnapshotFields.OptionsRead` | src/c_api.rs:846-862 | An absent number is null, a present one its numeral. |
| `SnapshotFields.ModesRead` | src/c_api.rs:831-838 | The spellings of the selection modes, and null for none. |
| `SnapshotFields.ElementAt` | src/c_api.rs:552-561 | Element i of a printed list is the tree of value i. |
| `SnapshotFields.EndpointNameAt` | src/c_api.rs:540-550 | Endpoint i is listed under its configured name, or as `endpoint_<id>`. |
| `Utf8.DecodeUndoesEncode` | src/c_api.rs:509-512 | The bytes handed to C decode to the string they came from. |
| `Utf8.ZeroByteIffNul` | src/c_api.rs:509-512 | A zero byte is among them exactly when the string holds U+0000. |
| `CBuffer.WriteStrToBuf` | src/c_api.rs:494-517 | Status and every byte of the buffer afterwards, for null and non-null buffers of any size. |
| `CBuffer.NullBufferAnswersIff` | src/c_api.rs:495-506 | A null buffer answers the size if and only if the length given with it is zero, or the size wraps to the error code itself. |
| `CBuffer.NullBufferRefused` | src/c_api.rs:495-497 | An input on which it does not: the empty string and a length of one. |
| `CBuffer.ReaderGetsAllIffNoNul` | src/c_api.rs:494-517 | In a large enough buffer a C reader finds the whole string if and only if it holds no U+0000. |
| `CBuffer.QueryThenFill` | src/c_api.rs:3696-3718 | A query answers the size; a fill of that size answers 0; what a C reader then finds decodes and parses back to the exported tree, and no byte beyond the terminator changed. |
| `CBuffer.ShortBuffer` | src/c_api.rs:508-517 | A smaller buffer holds a terminated prefix of the document, nothing beyond its length changed, and the size is reported. |
| `CBuffer.AnswerIsExactIff` | src/c_api.rs:505-516 | The reported size is exact if and only if it fits 31 bits, and reads as success exactly when it is a multiple of 2^32. |
| `CBuffer.ExportTopologyLen` | src/c_api.rs:3696-3703 | The length query answers the size of the document for the present snapshot. |
| `CBuffer.ExportTopology` | src/c_api.rs:3705-3718 | The export leaves the document of the present snapshot in the buffer and answers as above; a null handle changes nothing. |

## Left out

- LoadTable.Loads.Record: the count of one sender is an unbounded number; the source's `count += 1` would overflow only after 2^64 records of one scan.
- BoundedQueue.BoundedDeque.PushSelect: parking of compact payloads is not modelled, and the allocator is free to refuse or to round up; after a refusal the loop evicts more than its limits ask.
- SideGates.ActivityIsExact: steps are sequentially consistent and fewer than 2^64 guards are alive at once; weak memory ordering is not modelled.
- SideGates.OneWindowPerThread: assumes guards dropped on their own thread, innermost first, which the language does not enforce; the gate and counter theorems do not assume it.
- UtcLoop.UnixMsToUtc: the seven output pointers are one flag (all present) and one returned record; aliasing between outputs is not modelled.
- NetworkTime.ClockAcceptsIffNotLeapDay: covers the fields the ThreadX converter stores (whole milliseconds, no nanosecond part).
- TypedLog.LogTypedLittle: floats are bit patterns; handing the payload to the router, timestamps and queueing are not modelled, and memory exhaustion is not.
- SchemaTable.ReadRow: a JSON number is kept only as its u64 value, if it has one; parsing the configuration file and Rust's debug quoting (a parameter here) are not modelled.
- SchemaReadback.DocumentReadsBack: Rust's debug quoting is a parameter, and so is the function that reads a quoted name back; the proof asks only that the one undoes the other.
- JsonRoundTrip.RoundTrip: the parser accepts no white space, negative or fractional numbers and no surrogate pairs; the printers emit none.
- TopologyJson.TopologyToJson: the endpoint registry is a parameter and the integers are unbounded naturals; a literal piece is written as its punctuation around the named member, and one that spans several values is pushed in parts.
- CBuffer.WriteStrToBuf: a short buffer may end inside a multi-byte character; that case is stated on bytes only.
- DeferredService.OwedBandIsTriedInEveryWindow: rounds are selection then outcome; re-entrant selections made while an attempt is under way are covered by `DeferredService.ReservationIsKept` only.
- The classifiers that read wire headers (`packed_owner`, `incoming`, `compact_incoming`): owner, priority and stream are given with each item.
- The router, relay, side transport, wire format, discovery and cryptography.
- `RouterMutex` and the lock hooks of no_std builds, which only wrap a host lock.
- The remaining exports and entry points of src/c_api.rs, which repeat the modelled ones or forward to the router.
- The Python and C wrappers, the configuration editor, and the build, release and documentation scripts.
