# Verified core of the trading benchmark

A Dafny model of the parts of the benchmark platform whose correctness is not
local to one function: the three order books, the order-in-flight protocol of the
bot worker, the template-and-patch serializers with their streaming parser, and the
cores that connect them. Everything is stated for all inputs, all runs or all
interleavings; `dafny verify dfyconfig.toml` checks the whole project.

**Matching.** `PriceTimeBook` holds the reference: a side of a book is a list in
price-time order, and `Greedy` walks the makers, skips those that share the taker's
self-match-prevention (SMP) id and consumes the rest. `EngineSpec` builds the four
order kinds on it. `MatchingEngine` is the Rust engine as a class over price-level
trees, with the skip, restore, park and restore-parked loops; `LevelTree` relates
trees to lists. `Conservation`, `BookInvariants`, `CrossedBook` and `EngineRuns`
prove what every run keeps, `Matcher` adds the routing of fills. `GreedyMeaning` and
`EngineMeaning` say in closed form, without those functions, what each order does.
`InsertFirst*` is the C++ book, which inserts first and matches afterwards; `GoBook*` is the Go book
over heap records shared by queues and index, `GoLockstep` runs it beside the Rust
engine, and `GoReports` reads its reports in terms of bots.

**In flight.** `InFlightProtocol` is a state machine with one action per lock scope
or atomic operation of writer, reader and watchdog; the FIX and the REST/WebSocket
write loops take the same steps. A run is any interleaving under a non-decreasing
clock. `InFlightInvariants`, `InFlightCounts`, `InFlightExpiry` and `InFlightRuns`
prove the exactly-once account, the gauge, the cap, the absence of lost wake-ups,
and that the compact expiry queue refines a full scan; `InFlightTimes` ties every
record to the clock readings of the run. `PendingOrders` and
`OrderIds` hold the loops and the id round trip it uses. `Admission` is the
worker's slot allocator.

**Wire.** `Delimited`, `FixFrame`, `FixOffsets`, `FixPatch`, `FixTemplate` and
`FixCache` are the FIX templates: byte buffers patched in place with an incremental
checksum (Appendix B of FIX 4.2). `JsonText`, `JsonFrame`, `JsonTemplate` and
`JsonCache` are the JSON ones, bare for WebSocket or inside a REST request, and
`JsonWire`, `HttpRequests` and `JsonReads` the engine's reading of them.
`Calendar` and `FixTimestamp` format and patch the sending time. `StreamParser` and
`Framing` are the append, parse and drain loop; `TaggedFields` and `OrderWire` the
round trip from an order to FIX bytes and back through the engine's own parser, and
`OrderStamp` stamps such messages, `FixMeaning` says what each of their tags holds.

**Around them.** `Generator`, `GeneratorRuns` and `Fleet` produce the orders of a
session and feed them to the engine's run theorems; `FleetWire` does so with the
very bytes the caches and the timestamp patch put on the wire; `Bands` and `Batcher`
place and batch telemetry.

Bytes are `char`s in `seq<char>` or `array<char>`. Random draws, clock
readings, Tokio task ids and the arrival of acks are parameters or actions, so every
theorem holds for all of them. Freshness of ids is a hypothesis on runs, never on
single calls, and `Fleet` discharges it for the bots' own orders.

Five promises of the code are false as they stand, and the model says exactly when
they hold. The patched templates equal from-scratch rendering only up to 1000 SMP
ids, because the id is patched at width 3 (`FixCache.CacheExactIff`,
`JsonCache.CacheExactIff`). An engine book is crossed only between equal SMP ids as
long as no replace re-inserts across a foreign maker (`EngineRuns.RunCross`). The
watchdog's comment says its final sweep leaves every offered order matched or timed
out; an order inserted after that sweep stays pending, and those are the only ones
(`InFlightRuns.FinalAccount`, `InFlightRuns.LateInsertEscapes`). The matcher sends
a fill to the connection that last used the order's id, which is the owner's unless a
cancel from elsewhere carries that id (`Matcher.OwnersIff`). The Go and Rust
hash-derived placements, documented as mirrors, differ where the Go 32-bit sum
overflows (`Bands.PlacementsAgree`).

## Model

| member | source | states |
|---|---|---|
| MatchingEngine.MatchLevel | e2e/contestant-matching-engine/src/main.rs:137-180 | One price level: the loop that skips same-SMP makers and puts them back in front leaves exactly the fills, finished ids, level and remainder of the greedy walk; if quantity is left, the level is empty or all same-SMP. |
| MatchingEngine.Engine.SweepLevel | e2e/contestant-matching-engine/src/main.rs:118-195 | One turn over the best level: consuming it, parking it or dropping it advances the greedy walk over the whole side, and the tree shrinks unless the taker is done. |
| MatchingEngine.Engine.Sweep | e2e/contestant-matching-engine/src/main.rs:112-195 | The whole skip/park loop ends and its fills, finished ids and remainder are those of the greedy walk over the opposite side; the index loses exactly the finished ids; the taker's side is untouched. |
| MatchingEngine.Engine.Restore | e2e/contestant-matching-engine/src/main.rs:197-200 | Parked levels go back so that the side reads as the parked makers, in their original order, followed by what the loop left. |
| MatchingEngine.Engine.MatchAndRest | e2e/contestant-matching-engine/src/main.rs:112-208 | A new limit or market order refines the greedy specification on the whole book: fills, finished ids, both sides, index and arrival counter. |
| MatchingEngine.Engine.Remove | e2e/contestant-matching-engine/src/main.rs:218-230 | Removal takes the one indexed order out of its level, drops an emptied level and its index entry, and reports it finished; an unknown id changes nothing. |
| MatchingEngine.Engine.Replace | e2e/contestant-matching-engine/src/main.rs:232-267 | A same-price, non-increasing replace keeps its queue position under the new id; any other known target is removed and re-inserted at the back without matching; an unknown target changes nothing. |
| MatchingEngine.Engine.Process | e2e/contestant-matching-engine/src/main.rs:100-110 | Every order kind steps the level trees, index and counter as the list specification does. |
| Conservation.Waterfall | e2e/contestant-matching-engine/src/main.rs:138-180 | Independent arithmetic meaning of the greedy walk: an eligible maker is filled for the smaller of its quantity and what the eligible makers ahead of it leave of the order; an ineligible one gets nothing. |
| Conservation.WaterfallLeft | e2e/contestant-matching-engine/src/main.rs:112-208 | What is left of the order is its quantity minus the eligible quantity, floored at zero. |
| GreedyMeaning.GreedyIs | e2e/contestant-matching-engine/src/main.rs:112-208 | The whole outcome of the walk in closed form, from sums over the makers ahead: every fill with both ids, price and quantity, every finished id, and what stays. |
| GreedyMeaning.PairOf | e2e/contestant-matching-engine/src/main.rs:155-166 | Fills come in pairs, taker first: both for the same quantity, both at the price of one maker that is within the limit and does not share the order's SMP id. |
| GreedyMeaning.PairsInOrder | e2e/contestant-matching-engine/src/main.rs:118-166 | Fills follow the order of the makers. |
| GreedyMeaning.NoTradeMeans | e2e/contestant-matching-engine/src/main.rs:131-154 | A maker goes without a fill if and only if it is out of the limit, shares the order's SMP id, or the makers ahead use the order up. |
| EngineMeaning.SubmitMeans | e2e/contestant-matching-engine/src/main.rs:112-208 | A new order trades by the closed form; what is left of a limit order rests at its own price behind its price and before everything worse; anything else is done with; the index changes accordingly. |
| EngineMeaning.CancelMeans | e2e/contestant-matching-engine/src/main.rs:218-230 | A cancel takes out the one order it names, nothing else moves; an unknown id changes nothing. |
| EngineMeaning.ReplaceMeans | e2e/contestant-matching-engine/src/main.rs:232-267 | A replace at the same price for no more than is left changes id and quantity in place; any other takes the order out and puts the new one behind its price on the side and with the SMP id the replace names, without trading. |
| EngineMeaning.RunFillPrices | e2e/contestant-matching-engine/src/main.rs:112-208 | In every run with fresh ids, each pair of fills is at the price the index holds for the maker, within the order's limit, taker marked 2 and maker marked 1. |
| Conservation.GreedyConserves | e2e/contestant-matching-engine/src/main.rs:112-180 | For every id, filled plus still resting equals what rested before plus the taker's consumed part; taker volume equals maker volume. |
| BookInvariants.StepOk | e2e/contestant-matching-engine/src/main.rs:100-268 | Every order with a fresh id keeps the book invariant: each side in price-time order with distinct ids, the index naming exactly the resting orders with their side and price. |
| CrossedBook.StepCross | e2e/contestant-matching-engine/src/main.rs:112-268 | From a book where crossing makers share an SMP id, a step keeps that property if and only if it is not a replace that re-inserts across a foreign maker. |
| EngineRuns.RunGood | e2e/contestant-matching-engine/src/main.rs:100-268 | In every run with fresh ids: the book invariant; fills plus resting never exceed what was submitted under an id, with equality while a limit or replacing order is neither cancelled nor replaced; taker volume equals maker volume. |
| EngineRuns.OpenIff | e2e/contestant-matching-engine/src/main.rs:100-268 | In every run with fresh ids, an id counts as open in that account if and only if a limit order, or a replace of a resting order, brought it and nothing cancelled or replaced it since. |
| EngineRuns.SubmittedQty | e2e/contestant-matching-engine/src/main.rs:100-268 | The quantity submitted under an id is that of the order that brought it. |
| EngineRuns.RunFills | e2e/contestant-matching-engine/src/main.rs:100-110 | The fills and the book of a longer run are those of the shorter one continued by one step. |
| EngineRuns.RunCross | e2e/contestant-matching-engine/src/main.rs:112-268 | Over a whole run with fresh ids, every crossing bid and ask carry the same present SMP id at every moment if and only if no replace of the run re-inserts across a foreign maker. |
| EngineRuns.SamePriceDecreasesNeverCross | e2e/contestant-matching-engine/src/main.rs:232-268 | With only same-price, non-increasing replaces, crossing makers always share an SMP id. |
| EngineRuns.RepriceLeavesBookCrossed | e2e/contestant-matching-engine/src/main.rs:260-267 | A concrete run in which a repricing replace leaves a plainly crossed book. |
| Matcher.Task.Handle | e2e/contestant-matching-engine/src/main.rs:347-364 | One command: route, ack, match, send a report per routed fill with consecutive numbers, forget finished routes. |
| Matcher.Task.Run | e2e/contestant-matching-engine/src/main.rs:343-364 | The matcher loop over any list of commands is the fold of the single step. |
| Matcher.EveryFillSent | e2e/contestant-matching-engine/src/main.rs:343-364 | In every run whose new and replacing orders bring fresh ids, every fill finds its route: all fills of a command are reported, in order, consecutively numbered, each to the connection of the latest command that carried the filled order's id. |
| Matcher.AcksInOrder | e2e/contestant-matching-engine/src/main.rs:347-360 | In every run, whatever the ids: messages are numbered 1, 2, 3 and so on, and every command is acked once, in order, to its own connection under its own id. |
| Matcher.RoutesIff | e2e/contestant-matching-engine/src/main.rs:347-363 | In every run an id has a route if and only if some command carried it and nothing reported it done since. |
| Matcher.OwnersIff | e2e/contestant-matching-engine/src/main.rs:338-364 | Whatever command comes next, its fills reach the connections that brought the filled orders, if and only if the latest use of every resting order's id came over that order's own connection. |
| Matcher.CancelBorrowsId | e2e/contestant-matching-engine/src/main.rs:348-349 | A concrete run that breaks it: a cancel from another connection that carries a resting order's id takes over the order's route. |
| Matcher.DifferentKept | e2e/contestant-matching-engine/src/main.rs:343-364 | Where cancels bring ids of their own too, the latest use of an order's id is its owner's. |
| InsertFirstBook.Orderbook.MatchLevels | deploy-local/cpp-matching-engine/src/orderbook.cpp:39-80 | The inner loop over the two best levels produces the trades, filled ids and remaining orders of the crossing specification and removes at least one level. |
| InsertFirstBook.Orderbook.MatchOrders | deploy-local/cpp-matching-engine/src/orderbook.cpp:31-101 | Matching the whole book, then killing a fill-and-kill order left at either front, gives the specified trades and book. |
| InsertFirstBook.Orderbook.CanMatch | deploy-local/cpp-matching-engine/src/orderbook.cpp:10-23 | True exactly when the best opposite price meets the given price. |
| InsertFirstBook.Orderbook.AddOrder | deploy-local/cpp-matching-engine/src/orderbook.cpp:107-155 | Duplicate ids, markets on an empty side, markets priced at the worst level, unmatched fill-and-kill and plain inserts all act on the level maps, index and types as specified. |
| InsertFirstBook.Orderbook.CancelOrder | deploy-local/cpp-matching-engine/src/orderbook.cpp:160-184 | Cancelling removes one order, its index entry and an emptied level; an unknown id changes nothing. |
| InsertFirstBook.Orderbook.ModifyOrder | deploy-local/cpp-matching-engine/src/orderbook.cpp:189-196 | Modify is cancel and re-add under the same id with the old type; an unknown id changes nothing. |
| InsertFirstRuns.CrossIsGreedy | deploy-local/cpp-matching-engine/src/orderbook.cpp:31-101 | Insert-then-match is match-then-rest: crossing both sides with the newcomer at the front yields the greedy walk's fills and leftovers. |
| InsertFirstRuns.AddIsGreedy | deploy-local/cpp-matching-engine/src/orderbook.cpp:107-155 | On a tidy book, adding an order of positive quantity trades and rests exactly as the greedy specification of the other engines, with a fill-and-kill remainder dropped. |
| InsertFirstMeaning.AddMeans | deploy-local/cpp-matching-engine/src/orderbook.cpp:107-155 | An add trades with the makers in reach, in order, each order at its own limit price; a good-till-cancelled rest joins behind its price, a fill-and-kill rest is gone, and one that meets nobody changes nothing. |
| InsertFirstMeaning.MarketMeans | deploy-local/cpp-matching-engine/src/orderbook.cpp:112-129 | A market order is a good-till-cancelled order at the price of the worst opposite order, so no maker is out of its reach; on an empty side it changes nothing. |
| InsertFirstMeaning.BookCancelMeans | deploy-local/cpp-matching-engine/src/orderbook.cpp:160-184 | A cancel takes out the one order it names from its level, the index and the types. |
| InsertFirstMeaning.ModifyMeans | deploy-local/cpp-matching-engine/src/orderbook.cpp:189-196 | A modify takes the order out and adds it again under its id with the new side, price and quantity: it trades as an incoming order over the other side and rests behind its new price. |
| InsertFirstMeaning.AddMoves | deploy-local/cpp-matching-engine/src/orderbook.cpp:107-155 | What an id trades in an add plus what it then rests is what it rested before, plus the incoming quantity for the incoming id. |
| InsertFirstMeaning.ModifyMoves | deploy-local/cpp-matching-engine/src/orderbook.cpp:189-196 | In a modify the order trades or rests exactly the new quantity, and every other id's traded plus resting quantity is what it rested before. |
| InsertFirstRuns.AddZero | deploy-local/cpp-matching-engine/src/orderbook.cpp:107-155 | A zero-quantity order keeps the book tidy and produces either one zero trade against the front or none. |
| InsertFirstRuns.AddTidy | deploy-local/cpp-matching-engine/src/orderbook.cpp:107-155 | Every add, of any type, quantity or id, keeps the book tidy. |
| InsertFirstRuns.RunTidy | deploy-local/cpp-matching-engine/src/orderbook.cpp:31-196 | After every sequence of adds, cancels and modifies: every bid is priced below every ask, only good-till-cancel orders rest, and index and types name exactly the resting orders. |
| InsertFirstRuns.AddOneSided | deploy-local/cpp-matching-engine/src/orderbook.cpp:31-155 | Every trade of an add has the incoming order on exactly one side, its own. |
| GoBook.BestOppositePrice | deploy-local/correct-engine/src/main.go:132-152 | The scan finds a price exactly when some queue is non-empty, and then the best such price. |
| GoBook.Book.TakeLevel | deploy-local/correct-engine/src/main.go:183-211 | The inner loop writes the shared records down in place and leaves the greedy walk over that queue; the report counts only makers of other participants. |
| GoBook.Book.Match | deploy-local/correct-engine/src/main.go:168-221 | Matching over shared heap records and price maps is the specified step: fills, both sides, index and the reported quantity and price. |
| GoBook.Book.RemoveOrder | deploy-local/correct-engine/src/main.go:224-245 | Removal drops the record from its queue, deletes an emptied price and unlinks the id. |
| GoBook.Book.ReplaceOrder | deploy-local/correct-engine/src/main.go:251-270 | A same-price, non-increasing replace amends the shared record in place under the new id; otherwise the order is removed and appended anew. |
| GoLockstep.StepLinked | deploy-local/correct-engine/src/main.go:168-270 | One order without an SMP id takes linked Go and Rust books to linked books with the same fills. |
| GoLockstep.Lockstep | deploy-local/correct-engine/src/main.go:130-270 | Over every run with fresh ids and no SMP ids the two books hold the same orders in the same places after every step, and the Go index points at them. |
| GoLockstep.ReportIsTakerVolume | deploy-local/correct-engine/src/main.go:191-199 | The quantity the Go loop accumulates is the taker volume against makers of other participants. |
| GoLockstep.ReportsAgree | deploy-local/correct-engine/src/main.go:168-222 | In every such run the quantity Go reports equals the Rust engine's taker fills against other participants. |
| GoReports.ParticipantIsBot | deploy-local/correct-engine/src/main.go:108-114 | The participant of an order id is its bot, for every session (underscores included), number and kind. |
| GoReports.ParticipantsAreBots | deploy-local/correct-engine/src/main.go:108-114 | Two order ids share a participant if and only if they are of the same bot. |
| GoReports.BotReports | deploy-local/correct-engine/src/main.go:168-221 | In every run of bots' orders, Go reports for a new order the volume it trades with other bots' resting orders, at the price of the first of them. |
| PendingOrders.RemoveBatch | services/bot-fleet/src/worker.rs:898-907 | Removes every listed id still present and counts exactly the removals, each id once. |
| PendingOrders.TakenCounts | services/bot-fleet/src/worker.rs:898-907 | Removed and remaining orders split the map: sizes add up. |
| PendingOrders.PopDueExpirations | services/bot-fleet/src/worker.rs:912-926 | Pops exactly the leading due entries (all of them on the last tick) in order and leaves the rest. |
| PendingOrders.PopIsScan | services/bot-fleet/src/worker.rs:912-926 | On a queue ordered by deadline, popping the front finds exactly the due entries of the whole queue. |
| OrderIds.SplitJoin | services/bot-fleet/src/fix.rs:16-29 | Splitting a joined id returns the number and kind, whatever underscores the session id holds. |
| OrderIds.JoinInjective | services/bot-fleet/src/fix.rs:27-29 | Two orders of one task have the same id only if number and kind are the same. |
| InFlightInvariants.ExactlyOnceKept | services/bot-fleet/src/worker.rs:1215-1328 | Every action keeps: pending orders and departed orders split the offered ones, and no order departs twice. |
| InFlightCounts.GaugedKept | services/bot-fleet/src/worker.rs:1243-1320 | Every action keeps: gauge plus what writer, reader and watchdog still owe equals the size of the pending map. |
| InFlightCounts.CappedKept | services/bot-fleet/src/worker.rs:1169-1243 | Every action keeps the pending map below the cap plus one batch. |
| InFlightCounts.NoLostWakeUpKept | services/bot-fleet/src/worker.rs:1169-1182 | Every action keeps: a parked writer implies the map is at the cap or some remover still owes its notify; a writer about to park may also rely on a stored permit. |
| InFlightExpiry.StampedKept | services/bot-fleet/src/worker.rs:1291-1306 | Every action keeps the expiry queue ordered by deadline under a non-decreasing clock. |
| InFlightExpiry.TracksKept | services/bot-fleet/src/worker.rs:1291-1306 | Every action keeps: each queued record rebuilds to its order's id and carries its deadline, and records already settled name no pending order. |
| InFlightExpiry.CoveredKept | services/bot-fleet/src/worker.rs:1215-1306 | Every action keeps: while the writer is at work each pending order is recorded in the queue or in the writer's hands. |
| InFlightExpiry.EvictionIsScan | services/bot-fleet/src/worker.rs:1448-1477 | What an eviction removes is what a full scan of the map for overdue recorded orders would remove. |
| InFlightRuns.ReportedKept | services/bot-fleet/src/worker.rs:1383-1413 | Every action keeps: telemetry emitted plus telemetry in hand is, in order, the acked and the timed-out departures. |
| InFlightTimes.RunTimed | services/bot-fleet/src/worker.rs:1215-1506 | In every run every telemetry record, acked or timed out, and every pending order carries the order's send time, read off the actions: the clock when its batch was collected, or, if still pending then, when its write returned. |
| InFlightTimes.AckRecord | services/bot-fleet/src/worker.rs:1383-1413 | In every run the next record the reader emits after taking an ack off the map names that order as acked, with the send time the map held. |
| InFlightTimes.EvictionRecords | services/bot-fleet/src/worker.rs:1456-1504 | In every run the records emitted after an eviction are the orders that left the map then, timed out, with the send times the map held. |
| InFlightTimes.WrittenTime | services/bot-fleet/src/worker.rs:1274-1290 | In every run a record of an order that was still pending when its batch had been written carries the clock at the moment the write returned. |
| InFlightTimes.RunClocked | services/bot-fleet/src/worker.rs:1215-1475 | In every run: a tick's time is the clock at its start, the last tick is one at or past the drain deadline, and the late orders are those inserted after its eviction. |
| InFlightTimes.BatchCleared | services/bot-fleet/src/worker.rs:1161-1182 | In every run each batch inserted was let through by a stop check made before the task's end and before cancellation. |
| InFlightTimes.DeadlineMeans | services/bot-fleet/src/worker.rs:1291-1292 | A deadline is past if and only if five seconds have gone by since the send time, or the clock is at its end. |
| InFlightTimes.RunPermit | services/bot-fleet/src/worker.rs:1173-1182 | In every run the wake-up permit is stored if and only if a notify found nobody waiting since the writer's last poll. |
| InFlightRuns.RunGood | services/bot-fleet/src/worker.rs:1103-1512 | All of the above hold in every state of every interleaving of writer, reader, watchdog, clock and cancellation. |
| InFlightRuns.FinalAccount | services/bot-fleet/src/worker.rs:1448-1512 | When all three tasks have ended: offered = matched + timed out + write-failed + pending, the gauge is the map size, and what is pending is exactly the orders inserted after the final sweep that nobody removed. |
| InFlightRuns.TimeoutsAreExact | services/bot-fleet/src/worker.rs:1448-1477 | In every run each non-final eviction removes exactly the overdue orders whose records were pushed before the pop. |
| InFlightRuns.SurvivorsExplained | services/bot-fleet/src/worker.rs:1448-1477 | In every run an overdue order is still pending after an eviction only if its writer is leaving, if it is in the writer's hands, or if its record was pushed after the pop. |
| InFlightRuns.LateInsertEscapes | services/bot-fleet/src/worker.rs:1465-1475 | For every configuration that can send at all, a run exists that ends with an order pending: one inserted after the final sweep. |
| Admission.InFlight.TryAdmit | services/bot-fleet/src/worker.rs:216-231 | Busy before full; otherwise the lowest free slot below the cap is reserved, and the free-slot search cannot fail. |
| Admission.AdmitsMeans | services/bot-fleet/src/worker.rs:211-231 | Busy if and only if the partition is reserved, whatever the cap; full if and only if it is not and the cap is reached; otherwise the lowest slot nobody holds. |
| Admission.TooManySlots | services/bot-fleet/src/worker.rs:223-228 | If every slot below the cap is taken there are at least as many reservations as slots, whatever the slots are. |
| Admission.CompleteWorkload | services/bot-fleet/src/worker.rs:428-469 | A finished task frees its partition; a panicked one is found through the side table. |
| Admission.RunHeld | services/bot-fleet/src/worker.rs:328-469 | In every sequence of admissions, completions and panics the reserved partitions are those of the unjoined tasks, one each, in distinct slots below the cap. |
| Admission.HeldCount | services/bot-fleet/src/worker.rs:332-400 | As many reservations as live tasks, never more than the cap. |
| Admission.RefusedIff | services/bot-fleet/src/worker.rs:382-416 | A received spec is refused if and only if an unjoined task serves its partition. |
| Admission.DrainedEmpty | services/bot-fleet/src/worker.rs:335-344 | Once every task is joined, by finishing or by panicking, nothing stays reserved. |
| Admission.BarrierGroupsApart | services/bot-fleet/src/worker.rs:677-679 | Workloads running at the same time have different barrier groups. |
| Admission.BarrierGroupInjective | services/bot-fleet/src/worker.rs:677-679 | Different workers, or different slots of one worker, never share a barrier group. |
| FixFrame.FrameIsFinalize | services/bot-fleet/src/fix.rs:1207-1215 | A frame as fields is the finished body: version, body length, body, checksum. |
| FixOffsets.FoundLead | services/bot-fleet/src/fix.rs:587-601 | The byte search for each tag lands on that tag's own field, for every session id and every value. |
| FixOffsets.FoundTime | services/bot-fleet/src/fix.rs:97-101 | The search for the placeholder timestamp lands in tag 52. |
| FixPatch.WritePadded | services/bot-fleet/src/fix.rs:479-491 | Writes the low digits of a number at an offset, nothing else, and returns the byte sums before and after. |
| FixPatch.ApplyChecksumDelta | services/bot-fleet/src/fix.rs:496-505 | Moves the three checksum digits by the difference of two byte sums modulo 256. |
| FixPatch.Reseal | services/bot-fleet/src/fix.rs:496-505 | Moving the old checksum by the exchanged bytes gives the checksum of the new text. |
| FixTemplate.MidWrite | services/bot-fleet/src/fix.rs:643-688 | Overwriting one value between two checksums leaves the frame of the new values with the byte sums that account for the difference. |
| FixTemplate.Template.constructor | services/bot-fleet/src/fix.rs:572-620 | A new template holds the from-scratch frame and the offset of every value in it. |
| FixTemplate.Template.PatchInPlace | services/bot-fleet/src/fix.rs:642-689 | In-place patching leaves the frame, length and checksum of the patched values, with all offsets still right. |
| FixTemplate.Template.Patch | services/bot-fleet/src/fix.rs:622-703 | Rebuilds on an id-width or SMP-presence change, otherwise patches; the returned bytes are the frame of the specified values. |
| FixCache.TemplateCache.RenderNew | services/bot-fleet/src/fix.rs:1045-1047 | A limit order steps the cache and returns the bytes of the specified step. |
| FixCache.TemplateCache.RenderMarket | services/bot-fleet/src/fix.rs:1049-1051 | A market order steps the cache and returns the bytes of the specified step. |
| FixCache.CacheExact | services/bot-fleet/src/fix.rs:987-1051 | With at most 1000 rotating SMP ids, every sequence of renders equals rendering each order from scratch. |
| FixCache.CacheWrong | services/bot-fleet/src/fix.rs:659-668 | With more than 1000 ids, orders 1000 and 1001 already differ from scratch: three digits are written over four. |
| FixCache.CacheExactIff | services/bot-fleet/src/fix.rs:980-1051 | Every sequence of renders equals from-scratch rendering if and only if at most 1000 SMP ids rotate. |
| FixTimestamp.PatchTimestamp | services/bot-fleet/src/fix.rs:61-89 | Writes the formatted time over tag 52 and moves the checksum; without a tag offset the bytes stay. |
| FixTimestamp.StampedSealed | services/bot-fleet/src/fix.rs:61-89 | Patching a timestamp into any checksummed text gives the checksummed new text. |
| FixTimestamp.StampedFrame | services/bot-fleet/src/fix.rs:61-89 | Patching a frame's timestamp gives the frame built with that time: length and checksum stay right. |
| JsonText.FindWord | services/bot-fleet/src/fix.rs:811-824 | Searching a text for a quoted key is searching its quote-delimited pieces for that word. |
| JsonFrame.PayloadIsJoin | services/bot-fleet/src/fix.rs:725-750 | The JSON body of a limit or market order is its pieces joined by quotes. |
| JsonFrame.Found | services/bot-fleet/src/fix.rs:811-824 | Each search lands where its value starts, for every session id and every value; a market order has no price. |
| JsonTemplate.WriteBytes | services/bot-fleet/src/fix.rs:875-899 | Overwriting a value, or the first bytes of it, gives the bytes of the order with the new value, REST head and Content-Length included. |
| JsonTemplate.Template.constructor | services/bot-fleet/src/fix.rs:782-844 | A new template holds the from-scratch bytes, offsets and widths. |
| JsonTemplate.Template.Patch | services/bot-fleet/src/fix.rs:846-913 | Rebuilds when a digit width, the side length or SMP presence changes, otherwise patches in place; the returned bytes are those of the specified values. |
| JsonCache.TemplateCache.RenderNew | services/bot-fleet/src/fix.rs:1022-1047 | A limit order steps the JSON cache and returns the bytes of the specified step. |
| JsonCache.TemplateCache.RenderMarket | services/bot-fleet/src/fix.rs:1022-1051 | A market order steps the JSON cache and returns the bytes of the specified step. |
| JsonCache.CacheExact | services/bot-fleet/src/fix.rs:987-1051 | With at most 1000 rotating SMP ids, every sequence of REST or WebSocket renders equals rendering from scratch, so numbers never carry leading zeros (section 6 of RFC 8259). |
| JsonCache.CacheExactIff | services/bot-fleet/src/fix.rs:980-1051 | Every sequence of JSON renders equals from-scratch rendering if and only if at most 1000 SMP ids rotate. |
| JsonWire.PayloadReads | e2e/contestant-matching-engine/src/main.rs:653-725 | The engine's JSON reader gives a rendered payload back as the order: kind, side, quantity, id, SMP id, and the price of a limit order below 2^63. |
| JsonWire.StringReads | e2e/contestant-matching-engine/src/main.rs:702-707 | Every string field the reader asks for is read as the value rendered for it, and an absent one as absent. |
| JsonWire.NumberReads | e2e/contestant-matching-engine/src/main.rs:717-725 | Quantity and price are read as the digits rendered for them. |
| HttpRequests.RequestReads | e2e/contestant-matching-engine/src/main.rs:517-548 | The engine's request framing takes a rendered REST request off any buffer that starts with it: its body is the payload and its length the whole request. |
| JsonReads.BytesRead | e2e/contestant-matching-engine/src/main.rs:517-725 | REST or WebSocket bytes rendered from scratch read back as the order. |
| JsonReads.CacheReads | services/bot-fleet/src/fix.rs:987-1051 | With at most 1000 SMP ids, after any calls, what the JSON cache sends for an order is read by the engine as that order. |
| JsonReads.MeantIs | services/bot-fleet/src/fix.rs:980-985 | That order in terms of the call: kind, side, quantity, price, and the SMP id that rotates with the sequence number or is absent. |
| StreamParser.ParseMessages | services/bot-fleet/src/fix.rs:1225-1248 | The cursor loop returns the messages and consumed length of the recursive scan. |
| StreamParser.Resume | services/bot-fleet/src/fix.rs:1225-1293 | Parsing a text in two goes, carrying the unconsumed tail, is parsing it at once, wherever it is cut. |
| StreamParser.StreamReader.Receive | services/bot-fleet/src/worker.rs:1369-1422 | Append, parse, drain, and reset past 1 MiB: the messages and the buffer after one chunk. |
| StreamParser.StreamReader.ReceiveAll | services/bot-fleet/src/worker.rs:1369-1422 | The read loop over any list of chunks returns the messages of the chunk-wise specification and carries its tail. |
| StreamParser.ChunksDoNotMatter | services/bot-fleet/src/worker.rs:1369-1422 | However a stream is cut, the loop emits the messages of one parse of the whole stream, while the carried tail stays within the limit. |
| StreamParser.OverflowLoses | services/bot-fleet/src/worker.rs:1419-1422 | Once a carried tail exceeds the limit, some next chunk makes the loop miss a message that one parse would find. |
| StreamParser.ResetIff | services/bot-fleet/src/worker.rs:1419-1422 | After a chunk, every continuation agrees with one parse if and only if the carried tail is within the limit. |
| Framing.ScanFrames | services/bot-fleet/src/fix.rs:1225-1256 | A stream of well-formed frames parses into exactly those frames and is consumed entirely. |
| Framing.JunkSkipped | services/bot-fleet/src/fix.rs:1229-1234 | Bytes before the first frame that cannot start one are skipped. |
| Framing.StreamDelivers | services/bot-fleet/src/worker.rs:1369-1422 | However a stream of frames is cut, exactly those frames are received and nothing is carried over. |
| Framing.FinalizeFramed | services/bot-fleet/src/fix.rs:1207-1215 | Every finished body without a checksum field of its own is such a frame. |
| TaggedFields.ExtractByTag | e2e/contestant-matching-engine/src/main.rs:876-885 | Extracting a tag from a message of distinct tags returns that tag's value, or none. |
| OrderWire.ParseEncode | e2e/contestant-matching-engine/src/main.rs:823-885 | Any order, rendered to FIX and read by the engine, comes back with the same kind, side, quantity, ids and SMP id, and the same price where the message carries one and it is below 2^63. |
| FixMeaning.LengthAndChecksum | services/bot-fleet/src/fix.rs:1207-1215 | In every order message tag 9 is the number of bytes between it and tag 10, and tag 10 is the sum of all bytes before it modulo 256 in three digits. |
| FixMeaning.FixedTags | services/bot-fleet/src/fix.rs:154-193 | In every order message tag 34 is the sequence number plus one, tag 52 the time, and the sender, target, symbol, handling and time-in-force tags have their fixed values or are absent. |
| OrderWire.EncodeIsFrame | services/bot-fleet/src/fix.rs:507-538 | For limit and market orders the rendered message is the template's frame. |
| OrderStamp.TimeFound | services/bot-fleet/src/fix.rs:97-101 | The search for the placeholder in a message of any kind finds its time field. |
| OrderStamp.StampEncode | services/bot-fleet/src/fix.rs:61-101 | A message of any kind, rendered with the placeholder, searched and stamped, is the message rendered with that time. |
| OrderWire.FrameReads | e2e/contestant-matching-engine/src/main.rs:823-885 | Hence the engine reads the template's timestamped frames back as the orders they were made for. |
| Calendar.Civil | services/bot-fleet/src/time.rs:31-62 | The year and month loops end with the Gregorian date of the day number, in range. |
| Calendar.FormatFixTimestamp | services/bot-fleet/src/time.rs:20-98 | For every 64-bit count of nanoseconds the 21 bytes decode to a date and time at the same millisecond. |
| Calendar.DecodeText | services/bot-fleet/src/time.rs:64-98 | The text of every stamp before the year 10000 decodes to that stamp. |
| Calendar.DayOrder | services/bot-fleet/src/time.rs:34-62 | Day numbers order dates, and equal day numbers mean equal dates. |
| Calendar.DaysByFormula | services/bot-fleet/src/time.rs:34-62 | The day number of every date, summed from the table of months, is that of the usual closed formula with years counted from March. |
| Calendar.EpochText | services/bot-fleet/src/time.rs:64-98 | The epoch prints as the placeholder that frames are rendered with. |
| Calendar.TextOrder | services/bot-fleet/src/time.rs:64-98 | Byte-wise order of two timestamps is their order in time. |
| Generator.TaskGenerator.Emit | services/bot-fleet/src/content.rs:139-165 | One call steps the counter and ledger and emits the action of the specified step, for every random outcome. |
| Generator.TaskGenerator.TakeResting | services/bot-fleet/src/content.rs:237-244 | Takes one live order, moving the last into its place, or none from an empty ledger. |
| Generator.MixExact | services/bot-fleet/src/content.rs:169-182 | The hundred rolls give market, cancel and replace exactly their percentages if and only if the percentages add up to at most 100. |
| Generator.ShapeIff | services/bot-fleet/src/worker.rs:2185-2225 | A price, quantity and side can come up for a profile if and only if they are in that profile's ranges: price on the proper side of the mid, side by parity for the high-frequency profile. |
| GeneratorRuns.NextKind | services/bot-fleet/src/content.rs:139-165 | The kind emitted is the one rolled, except that a cancel or replace without a live order is a limit order; new orders have the price, quantity and side drawn, a replace the price drawn or its target's. |
| GeneratorRuns.RunComplete | services/bot-fleet/src/content.rs:186-244 | As long as the ledger stayed below 1024, every order that opened and was not targeted is in it. |
| GeneratorRuns.RunKept | services/bot-fleet/src/content.rs:139-244 | For every sequence of random outcomes: each cancel or replace names an order emitted earlier and not targeted before; the ledger holds distinct live ids, at most 1024; a replace keeps the quantity, or keeps the price with half the quantity but at least one. |
| Fleet.FleetFresh | services/bot-fleet/src/worker.rs:1073-1100 | However the tasks of a session interleave, their orders carry distinct non-empty ids. |
| Fleet.FleetGood | services/bot-fleet/src/worker.rs:1073-1100 | Hence every such interleaving is a run for which the engine's whole-run invariants hold. |
| Fleet.EncodedReads | services/bot-fleet/src/worker.rs:1073-1100 | Every order of such a run, rendered from scratch with its time, is read back by the engine as the order the generator meant, for any number of SMP ids. |
| FleetWire.FleetReads | services/bot-fleet/src/worker.rs:1199-1209 | With at most 1000 SMP ids, the bytes put on the wire for every order of such a run, cached templates or scratch-built frames, then stamped with any send time, are read by the engine as the order the generator meant. |
| Batcher.PartitionBatcher.PushEvent | services/bot-fleet/src/telemetry.rs:398-421 | Buffers one event under its partition and hands out the group when it reaches 1000 events. |
| Batcher.PartitionBatcher.DrainReady | services/bot-fleet/src/telemetry.rs:424-429 | Empties the buffers into the non-empty groups, each once, by rising partition. |
| Batcher.RunLossless | services/bot-fleet/src/telemetry.rs:387-430 | For every sequence of pushes and drains, partition by partition, what left followed by what is buffered is what was pushed, in order; chunks hold 1 to 1000 events of one partition. |
| Batcher.ChunkPlaced | services/bot-fleet/src/telemetry.rs:398-421 | In every such run an event that left was pushed before and left in the chunk of its own partition. |
| Batcher.ChunkInBand | services/bot-fleet/src/telemetry.rs:399-405 | With a leased band below floor(n / w), every chunk of every run stays inside that band's partitions. |
| Batcher.SessionsApart | services/bot-fleet/src/telemetry.rs:387-430 | Two sessions with different leased bands never send a chunk to the same partition, whatever they push. |
| Batcher.PushEmits | services/bot-fleet/src/telemetry.rs:414-420 | In every run a push hands out a chunk if and only if its event is the thousandth of its partition since the last chunk, and the chunk holds all thousand. |
| Batcher.ChunkFormula | services/bot-fleet/src/telemetry.rs:398-413 | In every run events leave for the partition their order id picks within the leased band, or within the band their session id picks. |
| Bands.Hash | schemas/rust/src/lib.rs:40-47 | The 64-bit FNV-1a loop computes the recursive hash. |
| Bands.HashVectors | schemas/rust/src/lib.rs:40-47 | The hash gives the published FNV-1a values of the prefixes of "foobar". |
| Bands.SessionPlaces | schemas/rust/src/lib.rs:99-117 | Where the sums fit 32 bits: the session's hash picks a band, counted by rounding up, the order's hash a place in it, wrapping at the end of the topic. |
| Bands.EveryPartitionUsed | schemas/rust/src/lib.rs:110-116 | Every partition is reached, also those of a trailing partial band. |
| Bands.LeasedBand | schemas/rust/src/lib.rs:154-163 | A leased band below floor(n / w) places an order at its band's start plus its hash modulo w, inside its own w partitions. |
| Bands.BandsExclusive | schemas/rust/src/lib.rs:154-163 | Two sessions with different leased bands below floor(n / w) never share a partition. |
| Bands.ExclusiveIff | schemas/rust/src/lib.rs:154-163 | The first `count` leased bands never place two hashes in one partition if and only if count is at most floor(n / w), 32-bit truncation included. |
| Bands.NextBandRepeats | schemas/rust/src/lib.rs:154-163 | Where w divides n, the band after the last whole one places every order id exactly where band 0 does. |
| Bands.BandCountsAgree | schemas/go/topics/topics.go:137-155 | Rust and Go count the same bands if and only if n + w - 1 fits 32 signed bits or the band is the whole topic. |
| Bands.PlacementsAgree | schemas/rust/src/lib.rs:99-117 | Rust and Go place every order id of every session id alike if and only if n + w - 1 fits 32 signed bits or the band is the whole topic. |

## Left out

- Kafka, sockets, Tokio scheduling, HTTP servers, metrics and logging: only the abstract step each one triggers is kept.
- Offset commits and redelivery around the workload consumer: they rest on the broker's behaviour, which is not in the code.
- Responses in JSON, the WebSocket handshake, framing and masking: easier relatives of the reading that is proved.
- Cancel and replace in JSON: rendered from scratch on every call, so there is no template to prove; they carry no SMP id on the wire.
- FixCache.TemplateCache.RenderNew: the source has one cache for both protocols; since a task speaks one protocol, the FIX half and the JSON half are two classes here.
- JsonFrame.PayloadIsJoin: identifiers are those the worker validates, so writing one as a JSON string only puts quotes around it.
- JsonReads.BytesRead: a host name holds no line break and a payload's length is a machine word; ASCII bytes only.
- StreamParser.ParseMessages: returns each message as its bytes; the type and client order id that the source reads off a message are covered by `TaggedFields.ExtractByTag`.
- OrderWire.ParseEncode: a price of 2^63 or more is read as 0, because the engine parses a signed 64-bit number; trimming and UTF-8 checks are modelled for ASCII bytes only.
- InsertFirstBook.Orderbook.MatchOrders: level queues are values, so the lifetime of the references the C++ code holds to erased levels is not modelled; prices and quantities are unbounded; the arrival counter is bookkeeping of the model.
- GoBook.Book.Match: the iteration order of Go maps is irrelevant to the result and is left open; each record's side and arrival number are ghost.
- InFlightRuns.RunGood: sequence numbers stay below 2^32, the width the generator counts in; what the generator puts into an order is a parameter of the protocol and is proved in `GeneratorRuns`.
- Generator.TaskGenerator.Emit: the random number generator is a list of draws; seeds and the distribution of profiles are not modelled.
- Bands.ExclusiveIff: its failing half names hash values; `Bands.NextBandRepeats` shows it for every order id where the width divides the topic. Rust arithmetic wraps, as in a release build.
- Batcher.PartitionBatcher.PushEvent: an event is its two ids and an opaque payload.
- The near-copies of the Go book, the echo, drain and stall contestants, the C++ FIX front end, SHA-1 and base64: duplicates, input/output or fixed algorithms.
- Validator, score aggregation, lease allocators, controllers, frontend, authentication and deployment are not part of this model.
