# Verified model of the charging core

This project models four parts of an electric-vehicle charging stack and proves what they promise,
for every input and every run:

* **The energy market** (`Energy*.dfy`). A tree of market places shares limits in amperes and watts
  between charging points. Offers are narrowed from the root to a leaf, brokers buy slices, purchases are
  booked on the whole path, and rounds are traded until nobody buys. `EnergySlot` describes one time slot
  on values; `EnergySafety`, `EnergyConservation`, `EnergyProgress`, `EnergyTermination`,
  `EnergyAlternation` and `EnergyFairness` prove its laws, and `EnergyPurchase` says from the limits of the
  nodes alone what is offered, bought and drawn; `EnergySchedule`, `EnergyMarket`, `EnergyBroker` and
  `EnergyManager` are the objects and loops that work in place, each proved to do what the slots do, up to
  end-to-end bounds on what is sent to every charging point, which `EnergyGrants` holds against the entries
  of the request.
* **The charger** (`Charger*.dfy`, `DutyCycle.dfy`). Fifteen states, a periodic tick, control-pilot
  events and commands, in any interleaving. `ChargerSpec` gives each step on values, `ChargerSafety`
  proves invariants over all runs, `ChargerLedger` says exactly which steps switch power, start, resume
  and forget, `ChargerDiagram` and `ChargerMemory` tabulate where every step leads, what it sends and what it
  sets, `ChargerPilot` derives what a car can read off the pilot line, `Charger` is the object with its
  fields, and every method is proved to make the step of the same name.
* **The V2G sessions** (`V2gTypes.dfy`, `Din*.dfy`, `Iso*.dfy`). The servers for DIN SPEC 70121 and
  ISO 15118-2: tables of expected requests, one handler per request, a receive loop. A run is any
  sequence of requests, reports of other threads, undecodable messages and failures to send. `DinSequence`,
  `IsoSequence` and `IsoAuthorization` prove the order of the phases; `DinAnswers` and `IsoAnswers` say of any
  request in any session how it is answered and what is expected next.
* **Modbus and physical values** (`Crc16.dfy`, `ModbusRtu.dfy`, `PhysicalValue.dfy`). The bitwise
  checksum and its strength against bursts of errors, frames, replies and requests, and the encoding of
  a number as 16 bits and a power of ten.

Conventions. Currents, powers, voltages and times of limits are exact (`real`, `int`) where the source
uses `float` and clock types. A schedule request has what its schema demands: limits and minimum currents
are not negative, a phase count is at least one, an efficiency is positive, and a schedule that is
present has at least one entry. Slices and the nominal voltage are positive. What a cable can carry, as
read by the charger, is not negative. Clock readings, messages, random numbers and answers of other
threads are parameters; the readings of one step are one parameter. Every step of the charger is taken to
be atomic: the source holds one mutex for most steps, takes its two mutexes in turn when authorization is
given or withdrawn, and holds only that of the configuration when the limit is set. Reports of other
threads reach a V2G session between requests. The checksum of a Modbus frame is stored low byte first, as
on the machines the source is written for.

In places the code does not do what its comments, its documentation or its standard say. The model
follows the code, and lemmas say what happens instead, and exactly when:

* Once import is used up, a broker exports, which makes room for import. Take EVSEs none of whose limits is
  zero in either direction, and on whose two sides amperes are bought only in units that the other side
  answers: amperes on both sides, and watts on both or on neither, will do. In a net of any shape, with or
  without minima, such an EVSE that has bought can buy again at once (`EnergyAlternation.CanBuyAgain`), so the
  rounds end by themselves if and only if nobody buys at first (`EnergyAlternation.SettlesExactly`,
  `EnergyManager.TwoWaySettlesExactly`), and else only the cap of 100 rounds ends the loop
  (`EnergyAlternation.BothWaysNeverSettles` is an instance). With watts on one side only the rounds can end
  (`EnergyAlternation.OneSidedRoundsEnd`); where everybody's import or everybody's export is shut, and the
  other side is limited in amperes, they do (`EnergyAlternation.ExportOnlySettles`,
  `EnergyAlternation.ImportOnlySettles`). Fairness and the bounds on purchases are stated for markets without
  export (`ImportOnly`).
* Watts that are bought under a watt limit alone are booked as amperes. So where neither a broker nor anybody it
  shares its watt limits with has a limit in amperes, it buys for ever if and only if it is offered any watts
  (`EnergyTermination.WattOnlyNeverSettles`, with an instance in `EnergyAlternation.WattsNeverSettle`).
* When limits are merged, a limit on the root side is kept if and only if there is one on the leaf side too
  (`EnergySchedule.RootLimitKeptExactly`); a dropped one can be exceeded, whatever it is,
  (`EnergySchedule.DroppedLimitIsExceeded`), a kept one bounds the grants (`EnergyManager.RootLimitGranted`,
  `EnergyGrants.EntriesGranted`).
* Timestamps of earlier optimizer runs stay in the grid (`EnergySchedule.Grid.CreateTimestamps`).
* The remembered state of the charger is overwritten before it is looked at. So the end of a replug is
  never announced (`ChargerSafety.ReplugNeverFinishes`), and charging is announced as resumed whenever it is
  entered with power in AC mode (`ChargerLedger.ResumedExactly`), though it never paused
  (`ChargerLedger.ResumedWithoutPause`).
* An authorized charger that waits again during a transaction, as after a replug, starts it a second time, and
  only then (`ChargerLedger.StartedAgainExactly`, `ChargerLedger.TransactionStartedTwice`).
* A transaction that is active when the charger enters Idle is forgotten without an event, and only then
  (`ChargerLedger.DroppedExactly`). Disabling leads there, and in DC mode restarting after the car is
  unplugged (`ChargerLedger.DroppedByDisabling`, `ChargerLedger.DroppedByRestarting`). The trace marks the
  place with `Dropped`.
* Power is switched off when the charger waits for authorization again or, in DC mode, pauses for the car; the
  end of a transaction, a cancellation or an error do not switch it off (`ChargerLedger.PowerExactly`, with a
  run in `ChargerLedger.CancelLeavesPower`).
* Between 51 A and 52.5 A the charger offers a duty cycle that the car reads as 52.5 A
  (`DutyCycle.NeverMoreThanOffered`).
* The DIN server publishes the start of charging before it validates the request
  (`DinSequence.StartedYetRejectedExactly`, with a run in `DinSequence.StartedTwice`), and takes a readiness
  other than 0 or 1 for the end of the charging phase but not of charging (`DinSequence.ChargingEndsExactly`,
  with a run in `DinSequence.ChargingOutlivesItsPhase`).
* The ISO server answers an untimely start or renegotiation with a failed response and goes on
  (`IsoSequence.FailedYetOpenExactly`, with a run in `IsoSequence.FailedAndWentOn`); it neither checks
  certificate updates nor certificates that were obtained from elsewhere. In AC mode two requests leave it in
  a state without an entry in its table (`IsoSequence.StatesAreInTheTable`).

The classes carry out the functions of the specification modules: every handler, tick, event and command is a
method whose contract is the function of the same name. The table lists those that branch; building blocks and
handlers with one outcome are proved the same way and have no row.

## Model

| member | source | states |
|---|---|---|
| `EnergySchedule.Grid.AddSchedule` | modules/EnergyManager/Market.cpp:74-79 | The timestamps of a schedule are appended in order; an absent schedule adds none. |
| `EnergySchedule.Grid.AddTimestamps` | modules/EnergyManager/Market.cpp:72-90 | The timestamps of a request and of everything below it are appended, and nothing else. |
| `EnergySchedule.Grid.CreateTimestamps` | modules/EnergyManager/Market.cpp:42-70 | The grid is strictly increasing and consists exactly of the old timestamps, the regular slots and all timestamps of the request tree. |
| `EnergySchedule.RegularTimesExactly` | modules/EnergyManager/Market.cpp:44-56 | There are as many regular slots as asked for, and the k-th begins k intervals after the start. |
| `EnergySchedule.GetMaxAvailableEnergy` | modules/EnergyManager/Market.cpp:134-188 | The loop over the grid yields, for every slot, the limits of the entry found for it: of a sorted request those of the entry in force, the leaf side divided by the efficiency and lowered to the root side. |
| `EnergySchedule.SearchFindsInForce` | modules/EnergyManager/Market.cpp:141-155 | The search finds the entry in force at an instant, the first one for earlier instants. |
| `EnergySchedule.SearchStopsFirst` | modules/EnergyManager/Market.cpp:141-155 | In any request, sorted or not, the search takes the first entry whose span holds the instant, or the first of all for earlier instants, and else the last. |
| `EnergySchedule.InForceUnique` | modules/EnergyManager/Market.cpp:151-154 | In a time-sorted request at most one entry is in force at an instant. |
| `EnergySchedule.GridRefinesEveryNode` | modules/EnergyManager/Market.cpp:42-90 | On the grid created for a request tree, at every instant it covers, every node's sorted schedules have in their slot the limits of the request's own step function. |
| `EnergySchedule.TimesOfNode` | modules/EnergyManager/Market.cpp:72-90 | Every instant that any node of the tree speaks of is collected. |
| `EnergySchedule.ResamplingRefines` | modules/EnergyManager/Market.cpp:134-188 | A sorted schedule whose instants lie on the grid does not change inside a slot: resampled and own limits agree. |
| `EnergySchedule.MergedValid` | modules/EnergyManager/Market.cpp:157-184 | Merging leaf-side and root-side limits keeps them admissible. |
| `EnergySchedule.MergedExactly` | modules/EnergyManager/Market.cpp:157-184 | A merged limit is unset exactly without a leaf-side limit; else, times the efficiency, it is at most the leaf-side limit, it is at most the root-side limit, and it attains one of them. |
| `EnergySchedule.LimitsOfEntry` | modules/EnergyManager/Market.cpp:134-188 | The limits of a sorted request at an instant are so converted from the entry in force. |
| `EnergySchedule.UnlimitedExactly` | modules/EnergyManager/Market.cpp:134-188 | A sorted schedule leaves an instant without a limit if and only if it is there and the entry in force, if any, has none on its leaf side. |
| `EnergySchedule.RootLimitKeptExactly` | modules/EnergyManager/Market.cpp:157-184 | The merged limits keep a root-side limit if and only if a leaf-side limit is set beside it; otherwise it is dropped. |
| `EnergySchedule.DroppedLimitIsExceeded` | modules/EnergyManager/Market.cpp:163-177 | For every limit on the root side alone there is a market in which one purchase takes more than it through the node. |
| `EnergyMarket.MaxAvailable` | modules/EnergyManager/Market.cpp:229-241 | A request is resampled; without a request nothing is available. |
| `EnergyMarket.ScheduleAdd` | modules/EnergyManager/Market.cpp:287-312 | Amounts are added slot by slot; what was not traded stays as it was. |
| `EnergyMarket.Market.constructor` | modules/EnergyManager/Market.cpp:221-247 | Builds one new market per request, all distinct, each with its merged limits, nothing sold, and its parent in the tree. |
| `EnergyMarket.Market.AddChild` | modules/EnergyManager/Market.cpp:243-246 | One more child with all below it joins the tree, which stays a tree. |
| `EnergyMarket.Market.GetListOfEvses` | modules/EnergyManager/Market.cpp:265-285 | Lists exactly the charging points of the tree, each once. |
| `EnergyMarket.EvsesOfExactly` | modules/EnergyManager/Market.cpp:265-285 | The charging points of a request are the nodes anywhere in its tree that are one. |
| `EnergyMarket.Market.GetAvailableEnergy` | modules/EnergyManager/Market.cpp:190-211 | What is left of the limits in a direction: sales in that direction are taken off, sales in the other are not added. |
| `EnergyMarket.Market.Trade` | modules/EnergyManager/Market.cpp:314-321 | Exactly the markets from this one to the root add the purchase to what they have sold. |
| `EnergyMarket.ApplyLimits` | modules/EnergyManager/Offer.cpp:51-66 | Every slot of an offer is narrowed by the limits of one market. |
| `EnergyMarket.Offer.constructor` | modules/EnergyManager/Offer.cpp:68-71 | A new offer is, in every slot and direction, the offer on the path to the market place. |
| `EnergyMarket.Offer.CreateOfferForLocalMarket` | modules/EnergyManager/Offer.cpp:75-92 | Walking to the root and back yields the limits of the whole path, narrowed. |
| `EnergyMarket.BelowExactly` | modules/EnergyManager/Market.cpp:243-246 | The markets below are exactly those in the trees of the children. |
| `EnergyMarket.ChildrenHavePlaces` | modules/EnergyManager/Market.cpp:243-246 | Every child that any request of the tree names has its market place in the tree. |
| `EnergySafety.OfferBelow` | modules/EnergyManager/Offer.cpp:51-92 | An offer is at most what is left on every market of the path. |
| `EnergySafety.OfferAttainedA` | modules/EnergyManager/Offer.cpp:27-37 | An offer in amperes is what is left on some market of the path: together with OfferBelow it is the minimum. |
| `EnergySafety.OfferAttainedW` | modules/EnergyManager/Offer.cpp:27-37 | The same for watts. |
| `EnergyPurchase.OfferIsLeast` | modules/EnergyManager/Market.cpp:190-211 | An offer, in amperes or watts, is limited if and only if a node of the path is, and then to the least that a node has left: its limit less what it sold in that direction, and never more than its limit. |
| `EnergyPurchase.OfferedMinimum` | modules/EnergyManager/Offer.cpp:39-62 | The minimum of an offer is the greatest that is set on the path. |
| `EnergyPurchase.PhasesOffered` | modules/EnergyManager/Offer.cpp:51-92 | The phases a broker reckons with are the fewest that a node of its path allows, and one if no node says anything. |
| `EnergySafety.BuySideCovered` | modules/EnergyManager/BrokerFastCharging.cpp:147-245 | Whatever a broker buys, in either direction, lies within its offer. |
| `EnergySafety.StepWithinLimits` | modules/EnergyManager/Market.cpp:190-211 | A broker's turn keeps every node between minus its export limit and its import limit. |
| `EnergySafety.NoOverAllocation` | modules/EnergyManager/EnergyManager.cpp:83-101 | After any sequence of turns of any brokers, what every node has sold in amperes and in watts lies between minus its export limit and its import limit. |
| `EnergyPurchase.WattsDrawn` | modules/EnergyManager/BrokerFastCharging.cpp:147-215 | Where the path limits amperes and watts, a decision in either direction is booked in watts as its amperes times the phases of the path times the voltage. |
| `EnergyPurchase.TradedWatts` | modules/EnergyManager/BrokerFastCharging.cpp:147-215 | In any run, what a broker has traded in watts is what it has traded in amperes times phases times voltage. |
| `EnergyPurchase.AmperePurchase` | modules/EnergyManager/BrokerFastCharging.cpp:45-215 | A purchase of amperes is positive and within the offer, as a current and as its watts on all phases; it is the minimum at a first trade that has one, else a slice, or less and then all that the amperes or the watts allow. |
| `EnergyPurchase.WattPurchase` | modules/EnergyManager/BrokerFastCharging.cpp:217-245 | A purchase out of watts alone is a slice of watts, or less and then all there is, and is booked as amperes and not as watts. |
| `EnergyPurchase.ImportsFirst` | modules/EnergyManager/BrokerFastCharging.cpp:57-82 | Whoever buys imports unless some node of its path has nothing left to import, and then exports. |
| `EnergyPurchase.FirstUntilBought` | modules/EnergyManager/BrokerFastCharging.cpp:247-251 | In any run, a broker's first trade is ahead exactly as long as it has bought nothing. |
| `EnergyPurchase.DecisionSets` | modules/EnergyManager/BrokerFastCharging.cpp:20-39 | A decision sets an amount in every unit in which import is limited on the path; without a purchase it sets zero there and nothing elsewhere. |
| `EnergyConservation.Conservation` | modules/EnergyManager/Market.cpp:287-321 | After any run, a node has sold exactly the sum of what the brokers below it have traded. |
| `EnergyConservation.ChildrenCarry` | modules/EnergyManager/Market.cpp:314-321 | A booking that passes through a node and does not end there passes through exactly one of its children. |
| `EnergyConservation.CurrentLaw` | modules/EnergyManager/Market.cpp:314-321 | After any run, a node has sold what its own brokers traded plus what its children have sold. |
| `EnergyConservation.CutLaw` | modules/EnergyManager/Market.cpp:314-321 | After any run, the nodes of any cut below a node have sold together exactly what the node has sold. |
| `EnergyConservation.RimCuts` | modules/EnergyManager/Market.cpp:265-285 | In a tree, the outermost EVSEs below a node are such a cut, also where one EVSE stands below another. |
| `EnergyConservation.SoldIsHeld` | modules/EnergyManager/EnergyManager.cpp:117-132 | What the outermost EVSEs below a node hold adds up to what the node has sold. |
| `EnergyImport.ImportDecision` | modules/EnergyManager/BrokerFastCharging.cpp:57-105 | Without export limits, a broker decides by its import offer alone, which is not negative and covers the purchase. |
| `EnergyImport.StepShrinksOffers` | modules/EnergyManager/Market.cpp:190-211 | Nobody's turn raises anybody's offer. |
| `EnergyImport.StepDropsOwnOffer` | modules/EnergyManager/Market.cpp:190-211 | After its own turn, a broker's offer has dropped by exactly what it bought. |
| `EnergyProgress.QuietExactly` | modules/EnergyManager/BrokerFastCharging.cpp:57-128 | A broker buys nothing in a slot if and only if the side it deals on has no limit, is used up, or cannot give the minimum of a first trade. |
| `EnergyProgress.ClosedExactly` | modules/EnergyManager/BrokerFastCharging.cpp:58-62 | An offer is closed if and only if some market on the path is sold out. |
| `EnergyProgress.QuietRoundIsFinal` | modules/EnergyManager/EnergyManager.cpp:83-101 | After a round without a trade, no broker is left an offer it could use. |
| `EnergyProgress.RoundsAreRuns` | modules/EnergyManager/EnergyManager.cpp:83-101 | What rounds make of a slot is a run of turns, so all laws of runs apply. |
| `EnergyProgress.KindOfPurchase` | modules/EnergyManager/BrokerFastCharging.cpp:147-215 | Every purchase in amperes is a full slice, is made at a first trade, or exhausts the offer. |
| `EnergyProgress.BudgetSpent` | modules/EnergyManager/BrokerFastCharging.cpp:45-128 | Every purchase uses up one of the purchases a broker can still make. |
| `EnergyProgress.BoundedPurchases` | modules/EnergyManager/EnergyManager.cpp:79-101 | In any run a broker buys at most floor(limit / slice) + 2 times in a slot. |
| `EnergyTermination.LoopSettles` | modules/EnergyManager/EnergyManager.cpp:83-101 | The number of rounds with a trade is bounded by the initial budgets, so the loop would end without its cap. |
| `EnergyTermination.WattOnlyNeverSettles` | modules/EnergyManager/BrokerFastCharging.cpp:217-245 | A broker without limits in amperes, whose watt limits it shares with such brokers only, buys on every one of its turns for ever if and only if it is offered any watts at first. |
| `EnergyTermination.SettledIsMaximal` | modules/EnergyManager/EnergyManager.cpp:83-101 | After a quiet round nobody is left an offer it could use, in any slot. |
| `EnergyAlternation.CanBuyAgain` | modules/EnergyManager/BrokerFastCharging.cpp:57-128 | A broker none of whose limits is zero, and whose sides are limited in units that answer each other, can buy again at once after every purchase. |
| `EnergyAlternation.SomebodyBuys` | modules/EnergyManager/EnergyManager.cpp:83-101 | In a net of any shape of such brokers, with watts and minima: after any run somebody would buy if and only if somebody would have bought at first. |
| `EnergyAlternation.NoRoundIsQuiet` | modules/EnergyManager/EnergyManager.cpp:83-101 | There a round, however late, is quiet if and only if nobody buys at first. |
| `EnergyAlternation.SettlesExactly` | modules/EnergyManager/EnergyManager.cpp:79-105 | There the rounds end by themselves if and only if nobody buys at first. |
| `EnergyAlternation.BothWaysNeverSettles` | modules/EnergyManager/BrokerFastCharging.cpp:57-82 | An instance: one EVSE that may import and export 16 A. |
| `EnergyAlternation.ImportOnlySettles` | modules/EnergyManager/EnergyManager.cpp:83-101 | Where everybody's export is shut and import is limited in amperes, the rounds end. |
| `EnergyAlternation.DecisionMirrored` | modules/EnergyManager/BrokerFastCharging.cpp:57-82 | Where import is closed a broker decides like its mirror image that imports. |
| `EnergyAlternation.ExportOnlySettles` | modules/EnergyManager/EnergyManager.cpp:83-101 | Where everybody's import is shut and export is limited in amperes, the rounds end. |
| `EnergyAlternation.OneEvseSettlesExactly` | modules/EnergyManager/BrokerFastCharging.cpp:57-82 | With a single EVSE limited in amperes on both sides, and in watts on both or neither, the rounds end by themselves if and only if one side is shut from the beginning or it does not buy at first. |
| `EnergyAlternation.OneSidedSettles` | modules/EnergyManager/BrokerFastCharging.cpp:57-128 | With a watt limit on the import side only, an EVSE with both sides open buys in three rounds and then is stuck. |
| `EnergyAlternation.OneSidedRoundsEnd` | modules/EnergyManager/BrokerFastCharging.cpp:57-128 | So there is a market in which nothing is shut, somebody buys at first, and the rounds end. |
| `EnergyAlternation.WattOnlyIsLoud` | modules/EnergyManager/BrokerFastCharging.cpp:217-245 | One broker under watt limits alone that buys at first keeps every round from being quiet. |
| `EnergyAlternation.WattsNeverSettle` | modules/EnergyManager/BrokerFastCharging.cpp:217-245 | An instance: one EVSE that may import 1000 W. |
| `EnergyFairness.SecondGetsNoMore` | modules/EnergyManager/Offer.cpp:75-92 | A sibling that is asked later buys no more than the one before it, at most a slice, and the same unless the shared path is then exhausted. |
| `EnergyFairness.RoundKeepsEven` | modules/EnergyManager/EnergyManager.cpp:85-98 | A complete round keeps two siblings equal, or within one slice with their shared path exhausted. |
| `EnergyFairness.Fairness` | modules/EnergyManager/EnergyManager.cpp:83-101 | After every complete round, two siblings with equal limits and no minimum have bought amounts within one slice of each other. |
| `EnergyFairness.MinimumIsLargest` | modules/EnergyManager/Offer.cpp:39-62 | The minimum of an offer is at least every minimum on the path. |
| `EnergyFairness.TradesNothingOrMinimum` | modules/EnergyManager/BrokerFastCharging.cpp:63-76 | In any run a broker has traded nothing or at least every positive minimum on its path. |
| `EnergyFairness.NothingOrMinimum` | modules/EnergyManager/BrokerFastCharging.cpp:63-76 | In any run every node, an EVSE's or not, has sold nothing or at least every positive minimum on it or above it. |
| `EnergyBroker.BrokerFastCharging.constructor` | modules/EnergyManager/BrokerFastCharging.cpp:10-11 | A new broker stands at its market place with every first trade before it. |
| `EnergyBroker.BrokerFastCharging.BuyAmpereUnchecked` | modules/EnergyManager/BrokerFastCharging.cpp:247-251 | Writes the amperes of one slot, marks a trade and ends the first trade of that slot only. |
| `EnergyBroker.BrokerFastCharging.BuyWattUnchecked` | modules/EnergyManager/BrokerFastCharging.cpp:253-256 | Writes the watts of one slot and marks a trade. |
| `EnergyBroker.BrokerFastCharging.BuyAmpere` | modules/EnergyManager/BrokerFastCharging.cpp:147-215 | Buys the wanted amperes, what is left of them, or what the watts allow, or nothing, as the slot decides; under a watt limit the watts are the amperes times the phases times the voltage. |
| `EnergyBroker.BrokerFastCharging.BuyWatt` | modules/EnergyManager/BrokerFastCharging.cpp:217-245 | Buys the wanted watts or what is left, booked as amperes. |
| `EnergyBroker.BrokerFastCharging.TradeSlot` | modules/EnergyManager/BrokerFastCharging.cpp:46-105 | One slot's decision between import, export and nothing, other slots untouched. |
| `EnergyBroker.BrokerFastCharging.Trade` | modules/EnergyManager/BrokerFastCharging.cpp:13-129 | The decisions of all slots are booked from the market place to the root, and the result says whether anything was bought. |
| `EnergyManager.CreateBrokers` | modules/EnergyManager/EnergyManager.cpp:64-74 | One new broker per charging point, in order. |
| `EnergyManager.Turn` | modules/EnergyManager/EnergyManager.cpp:85-98 | A broker's turn on the objects is its turn in every slot. |
| `EnergyManager.Round` | modules/EnergyManager/EnergyManager.cpp:84-98 | A round gives every broker one turn, and reports no trade exactly if nobody bought. |
| `EnergyManager.TradeRounds` | modules/EnergyManager/EnergyManager.cpp:79-101 | The loop ends with the first quiet round or after 100 rounds, with what those rounds make of every slot. |
| `EnergyManager.SettlesWithinCap` | modules/EnergyManager/EnergyManager.cpp:103-105 | If the initial budgets are below 100, the loop ends with a quiet round. |
| `EnergyManager.TwoWayUsesAllRounds` | modules/EnergyManager/EnergyManager.cpp:79-105 | If in any slot all EVSEs are as in EnergyAlternation.SettlesExactly and anybody buys at first, the loop stops only for lack of rounds. |
| `EnergyManager.TwoWaySettlesExactly` | modules/EnergyManager/EnergyManager.cpp:79-105 | If they are in every slot, the loop ends with a quiet round if and only if nobody buys at first. |
| `EnergyManager.Collect` | modules/EnergyManager/EnergyManager.cpp:114-134 | Every charging point is sent the schedule it holds, the first slot of it as its limits, and until when they are valid. |
| `EnergyManager.RunOptimizer` | modules/EnergyManager/EnergyManager.cpp:48-135 | The whole run: the EVSEs of the request, in its order, are sent what they hold after the rounds of a market built for the request. |
| `EnergyManager.HeldWithinLimits` | modules/EnergyManager/EnergyManager.cpp:127-129 | After any number of rounds, what the outermost charging points below a node hold together lies within the limits of that node. |
| `EnergyManager.MarketIsTree` | modules/EnergyManager/Market.cpp:243-246 | The paths of a request's market are those of a tree, with one broker for every charging point. |
| `EnergyManager.GrantedWithinRequest` | modules/EnergyManager/EnergyManager.cpp:48-135 | End to end: on the grid created for the request, at every instant and for every node with sorted schedules, what is sent to the charging points below it lies together within the limits the node's own request sets at that instant. A charging point below another is counted with the upper one. |
| `EnergyManager.UnnestedAreOutermost` | modules/EnergyManager/Market.cpp:265-285 | If no charging point of the request stands below another, every charging point below a node is counted. |
| `EnergyManager.SentIsMaximal` | modules/EnergyManager/EnergyManager.cpp:83-134 | If the loop ended with a quiet round, no charging point is left an offer it could use beside what it is sent, in any slot. |
| `EnergyManager.SentIsFair` | modules/EnergyManager/EnergyManager.cpp:83-134 | Two charging points below one node that ask for the same, without a minimum, are sent currents within one slice of each other in every slot without export. |
| `EnergyManager.RootLimitGranted` | modules/EnergyManager/Market.cpp:157-184 | A limit on the root side that is not dropped bounds what is sent as well. |
| `EnergyGrants.EntriesGranted` | modules/EnergyManager/EnergyManager.cpp:48-135 | End to end, at every instant and for every node with sorted schedules: what is sent to the charging points below it, times the efficiency of the entry in force, is at most the leaf-side limit of that entry, and at most its root-side limit if there is a leaf-side one; without a schedule nothing is sent in its direction. |
| `EnergyGrants.AloneHolds` | modules/EnergyManager/EnergyManager.cpp:117-132 | A node that serves one broker alone holds what that broker has traded. |
| `EnergyGrants.SentWatts` | modules/EnergyManager/EnergyManager.cpp:114-134 | Where its path limits amperes and watts, a charging point is sent, for every slot, the watts that its current draws on the phases of the path. |
| `EnergyGrants.SentNothingOrMinimum` | modules/EnergyManager/EnergyManager.cpp:114-134 | Without export, a charging point is sent no current, or at least the root-side minimum in force at any node of its path. |
| `EnergyGrants.SentIsSet` | modules/EnergyManager/EnergyManager.cpp:114-134 | After the rounds, a charging point is sent a number, if only zero, in every slot and unit in which its import is limited. |
| `EnergyManager.NodesHaveMarkets` | modules/EnergyManager/Market.cpp:243-246 | Every node of the request has its market place, so the bound holds for every node. |
| `EnergyManager.Optimize` | modules/EnergyManager/EnergyManager.cpp:24-35 | One turn of the optimizer's thread, from creating the grid to the limits that are sent, keeps the grants of every node at every instant. |
| `ChargerObject.Charger.constructor` | modules/EvseManager/Charger.cpp:20-45 | A new charger is disabled, with no session, no transaction and a limit of 6 A. |
| `ChargerObject.Charger.PowerAvailable` | modules/EvseManager/Charger.cpp:1184-1192 | An expired limit becomes zero; power is available above 5.9 A. |
| `ChargerObject.Charger.CheckSoftOverCurrent` | modules/EvseManager/Charger.cpp:1160-1180 | Ten percent above the limit for seven seconds leads to the error state. |
| `ChargerObject.Charger.Authorize` | modules/EvseManager/Charger.cpp:996-1013 | Authorization opens a session if there is none; its refusal closes the session. |
| `ChargerObject.Charger.TickIdle` | modules/EvseManager/Charger.cpp:126-133 | Entering ends the session and forgets a transaction. |
| `ChargerObject.Charger.TickWaitingForAuthentication` | modules/EvseManager/Charger.cpp:135-313 | Entering switches power off and opens a session; an authorized session starts a transaction and goes where figures 3 to 8 of ISO 15118-3 say. |
| `ChargerObject.Charger.TickTStepEF` | modules/EvseManager/Charger.cpp:315-328 | State F for four seconds, then back with the duty cycle that was set. |
| `ChargerObject.Charger.TickTStepX1` | modules/EvseManager/Charger.cpp:330-343 | State X1 for three seconds, then back with the duty cycle that was set. |
| `ChargerObject.Charger.TickPrepareCharging` | modules/EvseManager/Charger.cpp:345-370 | Entering allows power and offers 5 percent or nothing; then the limit is followed. |
| `ChargerObject.Charger.TickCharging` | modules/EvseManager/Charger.cpp:372-398 | In AC mode: over-current is checked, lack of power pauses, and the limit is followed slowly; entering with power sends 5 percent or a duty cycle that the car reads as the limit. |
| `ChargerObject.Charger.TickChargingPausedEV` | modules/EvseManager/Charger.cpp:400-432 | DC goes on to stopping; AC stays ready, with the checks of charging, and on entering with power sends 5 percent or a duty cycle that the car reads as the limit. |
| `ChargerObject.Charger.TickStoppingCharging` | modules/EvseManager/Charger.cpp:452-473 | An active transaction is stopped once; AC goes on to Finished, DC waits. |
| `ChargerObject.Charger.TickFinished` | modules/EvseManager/Charger.cpp:475-489 | A transaction that is still active is stopped, the session ends, and the charger becomes idle. |
| `ChargerObject.Charger.TickOther` | modules/EvseManager/Charger.cpp:109-124 | Disabled, replugging, paused by the station, waiting for energy, error and fault announce themselves once. |
| `ChargerObject.Charger.RunStateMachine` | modules/EvseManager/Charger.cpp:82-506 | A tick of the whole machine, in every state, with the countdown that can end it early. |
| `ChargerObject.Charger.MainThreadTurn` | modules/EvseManager/Charger.cpp:51-80 | A turn of the main thread is a tick, keeps the invariant, and puts no duty cycle on the pilot line that reads as anything but the limit, nothing or 5 percent. |
| `ChargerObject.Charger.ProcessEvent` | modules/EvseManager/Charger.cpp:548-583 | A control-pilot event acts first independently of the state, then in the state, and keeps the invariant. |
| `ChargerObject.Charger.ProcessCPEventsIndependent` | modules/EvseManager/Charger.cpp:643-688 | Replug, unplug and errors move the charger from any state. |
| `ChargerObject.Charger.ProcessCPEventsState` | modules/EvseManager/Charger.cpp:585-641 | Plugging in, requesting and stopping power move the charger in the states that expect them. |
| `ChargerObject.Charger.SetMaxCurrentUntil` | modules/EvseManager/Charger.cpp:755-775 | A limit of 0 A to 80 A that is still valid is stored, capped by the cable on a socket; any other is refused. |
| `ChargerObject.Charger.SetMaxCurrent` | modules/EvseManager/Charger.cpp:777-796 | The same within the validity of the last limit. |
| `ChargerObject.Charger.ResumeCharging` | modules/EvseManager/Charger.cpp:808-815 | Only a charger that was paused by the station, with an active transaction, resumes, and it waits for energy. |
| `ChargerObject.Charger.ResumeChargingPowerAvailable` | modules/EvseManager/Charger.cpp:828-836 | Charging resumes only with an active transaction, waiting for energy, with power. |
| `ChargerObject.Charger.CancelTransaction` | modules/EvseManager/Charger.cpp:850-871 | An active transaction ends at once and the charger leaves the charging states. |
| `ChargerObject.Charger.DeAuthorize` | modules/EvseManager/Charger.cpp:1033-1051 | Authorization is withdrawn only where it is not in use. |
| `ChargerObject.Charger.RequestErrorSequence` | modules/EvseManager/Charger.cpp:1194-1205 | Only while waiting for authorization, the charger goes through state F and back, to 5 percent if it was used. |
| `ChargerObject.Charger.Command` | modules/EvseManager/Charger.cpp:755-1223 | Every command makes its step and keeps the invariant. |
| `ChargerObject.Charger.Live` | modules/EvseManager/Charger.cpp:51-80 | Whatever happens to a new charger, in whatever order, is a run of the state machine and keeps its invariant. |
| `ChargerSafety.ProceedKeepsInv` | modules/EvseManager/Charger.cpp:202-311 | Every way out of authorization keeps power states inside a transaction. |
| `ChargerSafety.StateKeepsInv` | modules/EvseManager/Charger.cpp:108-505 | A tick in any state keeps the invariant. |
| `ChargerSafety.IndependentKeepsInv` | modules/EvseManager/Charger.cpp:643-688 | Every pilot event, in any state, keeps the invariant. |
| `ChargerSafety.CommandKeepsInv` | modules/EvseManager/Charger.cpp:799-871 | Every command keeps the invariant. |
| `ChargerSafety.RunKeepsInv` | modules/EvseManager/Charger.cpp:51-80 | Every interleaving of ticks, events and commands keeps the invariant. |
| `ChargerSafety.OpenObserved` | modules/EvseManager/Charger.cpp:883-914 | Reading the outputs one by one finds a transaction or session open exactly if it was begun and not ended since. |
| `ChargerSafety.FlagsAreObservable` | modules/EvseManager/Charger.cpp:873-914 | In every run the charger's flags are what the outputs show, and authorization implies a session. |
| `ChargerSafety.PowerOnSafety` | modules/EvseManager/Charger.cpp:345-432 | In every run, power is allowed only after a TransactionStarted with no finish, cancel or drop since. |
| `ChargerSafety.TransactionsAreNested` | modules/EvseManager/Charger.cpp:202-284 | In every run, a transaction starts only inside a session and finishes only if one is open; that it starts only when authorized is ChargerLedger.StartedExactly. |
| `ChargerSafety.StartBetweenFinishes` | modules/EvseManager/Charger.cpp:452-489 | In every run, between two TransactionFinished lies a TransactionStarted. |
| `ChargerSafety.FinishedNeverOutnumberStarted` | modules/EvseManager/Charger.cpp:452-489 | In every run, finishes never outnumber starts, and lag behind while a transaction is active. |
| `ChargerSafety.DutyCyclesAreMeaningful` | modules/EvseManager/Charger.cpp:700-707 | In every run, each commanded duty cycle is 0.05, 1.0 or in [0.1, 0.96]. |
| `ChargerSafety.LimitStaysInRange` | modules/EvseManager/Charger.cpp:755-796 | In every run, the stored limit lies between 0 A and 80 A. |
| `ChargerSafety.ReplugNeverFinishes` | modules/EvseManager/Charger.cpp:88-145 | In no run is the end of a replug announced. |
| `ChargerLedger.StepLedger` | modules/EvseManager/Charger.cpp:82-506 | For every step in every state: how often it drops, resumes, pauses or starts, and whether power is allowed after it. |
| `ChargerLedger.StartedExactly` | modules/EvseManager/Charger.cpp:202-206 | A step announces TransactionStarted if and only if it is a tick that finds the charger waiting, authorized, in a session, and supplied in DC mode. |
| `ChargerLedger.StartedAgainExactly` | modules/EvseManager/Charger.cpp:202-206 | In every run, a transaction is started while another is open if and only if a tick finds an authorized charger waiting with its transaction active. |
| `ChargerLedger.TransactionStartedTwice` | modules/EvseManager/Charger.cpp:643-688 | A run from a new charger in which the end of a replug starts an open transaction again. |
| `ChargerLedger.ResumedExactly` | modules/EvseManager/Charger.cpp:384-386 | A step announces ChargingResumed if and only if it is a tick that enters Charging in AC mode with a valid limit above 5.9 A, and the countdown has not run out. |
| `ChargerLedger.ResumedWithoutPause` | modules/EvseManager/Charger.cpp:384-386 | A run from a new charger that announces ChargingResumed and never a pause. |
| `ChargerLedger.DroppedExactly` | modules/EvseManager/Charger.cpp:126-133 | A step forgets a transaction if and only if it is a tick that enters Idle while a transaction is active, and the countdown has not run out. |
| `ChargerLedger.DroppedByDisabling` | modules/EvseManager/Charger.cpp:1060-1075 | A run from a new charger that forgets its transaction by being disabled and enabled. |
| `ChargerLedger.DroppedByRestarting` | modules/EvseManager/Charger.cpp:643-688 | A run from a new charger in DC mode that forgets its transaction by unplugging and restarting. |
| `ChargerLedger.PowerExactly` | modules/EvseManager/Charger.cpp:345-432 | In every run, power was last allowed and not forbidden since if and only if some tick switched it on and no later one entered WaitingForAuthentication or, in DC mode, ChargingPausedEV. |
| `ChargerLedger.CancelLeavesPower` | modules/EvseManager/Charger.cpp:850-871 | A run from a new charger in which power stays allowed after the transaction was cancelled. |
| `ChargerDiagram.LeadsExactly` | modules/EvseManager/Charger.cpp:82-688 | The state diagram: where every tick, event and command leads from every state, by the state, limit, clocks and flags before it. |
| `ChargerDiagram.SendsExactly` | modules/EvseManager/Charger.cpp:82-688 | Everything that every step sends in every state, in order. |
| `ChargerMemory.LimitExactly` | modules/EvseManager/Charger.cpp:755-796 | The limit and its validity after every step: a limit is taken exactly between 0 A and 80 A while valid, at a socket not above the cable's rating, and expires to 0 A. |
| `ChargerMemory.TickSets` | modules/EvseManager/Charger.cpp:82-506 | What a tick makes of the authorization, the digital communication, the returns from pauses and the clocks, in every state. |
| `ChargerMemory.CommandSets` | modules/EvseManager/Charger.cpp:755-1223 | What an event or a command makes of them, and of what the charger was told. |
| `ChargerPilot.PilotReadsLimit` | modules/EvseManager/Charger.cpp:372-432 | In every run, every duty cycle that a step sends is 5 percent, offers nothing, or is read by the car as the limit stored after that step. |
| `ChargerPilot.SwitchesOnAtLimit` | modules/EvseManager/Charger.cpp:384-391 | A tick that switches on for charging sends the announcement, the power, and one duty cycle: 5 percent in digital communication, else one that the car reads as the limit. |
| `ChargerPilot.TickMoves` | modules/EvseManager/Charger.cpp:690-713 | After a tick the last duty cycle that was sent, its time and the state that was found are remembered. |
| `ChargerPilot.LastDutyRemembered` | modules/EvseManager/Charger.cpp:690-713 | In every run, the duty cycle the charger remembers is the last one it sent. |
| `ChargerPilot.IntoChargingExactly` | modules/EvseManager/Charger.cpp:585-641 | In every run, charging is reached from another state if and only if the car asks for it after a pause, or with power after preparation in AC mode, or current demand starts after preparation, or power returns during a transaction that waits for it; never by a tick. |
| `DutyCycle.DutyCycleRoundTrip` | modules/JsCarSimulator/index.js:266-272 | For every limit, what the car decodes from the encoded duty cycle, range by range; inside (6.1, 51) and [52.5, 80] it is the limit. |
| `DutyCycle.NeverMoreThanOffered` | modules/EvseManager/Charger.cpp:730-753 | The car decodes more than the limit exactly in [5.9, 6), in [51, 52.5) and below zero. |
| `DutyCycle.LimitsAreMeaningful` | modules/EvseManager/Charger.cpp:730-753 | A limit is encoded as invalid or in the analogue range, exactly unless it is just above 80 A. |
| `DutyCycle.InvalidExactly` | modules/EvseManager/Charger.cpp:730-753 | An invalid request is signalled exactly below 5.9 A and above 80.1 A. |
| `DutyCycle.KnownDutyCycles` | modules/EvseManager/Charger.cpp:730-753 | 6, 30, 51, 65 and 80 A are 10, 50, 85, 90 and 96 percent. |
| `DinServer.Context.ValidateResponseCode` | modules/EvseV2G/din_server.cpp:78-120 | The code and event after outside errors, the sequence and the session id, the later check overriding. |
| `DinServer.Context.HandlePaymentSelection` | modules/EvseV2G/din_server.cpp:422-453 | External payment and exactly the charge service are accepted. |
| `DinServer.Context.HandleContractAuthentication` | modules/EvseV2G/din_server.cpp:462-482 | Parameter discovery is next exactly if authorization has finished. |
| `DinServer.Context.HandleChargeParameter` | modules/EvseV2G/din_server.cpp:491-620 | Exactly the station's own DC transfer type without AC parameters is accepted; the cable check is next exactly if parameters are finished. |
| `DinServer.Context.HandleCableCheck` | modules/EvseV2G/din_server.cpp:712-760 | The session goes on to precharge exactly if the check finished with isolation valid or warning and the station ready. |
| `DinServer.Context.HandlePowerDelivery` | modules/EvseV2G/din_server.cpp:629-703 | Readiness, the schedule, the station's status and the last message decide on charging, its end or the end of the session. |
| `DinServer.Context.HandleRequest` | modules/EvseV2G/din_server.cpp:924-1085 | A request is dispatched, handled and remembered; unsupported ones are ignored. The answer, what becomes of the connection and the requests expected next are those of DinAnswers. |
| `DinServer.Context.ServeOne` | modules/EvseV2G/v2g_server.cpp:446-580 | One turn of the loop goes on exactly if nothing failed and nothing terminates. |
| `DinServer.Context.Serve` | modules/EvseV2G/v2g_server.cpp:446-580 | The receive loop is the run over its inbox: it stops at the first terminating event or failure and goes on over ignored messages. |
| `DinServer.Context.HandleConnection` | modules/EvseV2G/v2g_server.cpp:340-606 | A whole connection is a run from the initial state, with the phases in order, and leaves a reset context. |
| `DinServer.RunStops` | modules/EvseV2G/v2g_server.cpp:580 | Nothing is handled after the connection has closed. |
| `DinAnswers.AnswerExactly` | modules/EvseV2G/din_server.cpp:78-120 | The response code of every request in every session, and what becomes of the connection. |
| `DinAnswers.FollowersExactly` | modules/EvseV2G/din_server.hpp:61-95 | After every request, well answered or not, the table expects exactly the requests that the message sequence allows next. |
| `DinAnswers.SetupComesFirst` | modules/EvseV2G/din_server.hpp:61-95 | A new session expects its setup and nothing else. |
| `DinAnswers.RemembersExactly` | modules/EvseV2G/din_server.cpp:924-1085 | What a request changes in the session: its number once, the transfer type, charging and the last message. |
| `DinAnswers.OpenExactly` | modules/EvseV2G/v2g_server.cpp:446-580 | A connection stays open if and only if the request does not end it and the answer, if there is one, was sent. |
| `DinAnswers.ResetExactly` | modules/EvseV2G/v2g_server.cpp:340-606 | A new connection finds an initial session, with stop requests and emergencies cleared. |
| `DinSequence.CurrentDemandIsPrepared` | modules/EvseV2G/din_server.cpp:64-120 | Sequence safety: in every run, an accepted CurrentDemandReq is preceded, in order, by the eight phases. |
| `DinSequence.PassedIsInOrder` | modules/EvseV2G/din_server.hpp:61-95 | What the proof counts as passed stands in the log in increasing positions. |
| `DinSequence.AcceptedExactly` | modules/EvseV2G/din_server.cpp:78-120 | A request is accepted if and only if it is expected, in the right session, undisturbed and in order itself. |
| `DinSequence.SequenceErrorExactly` | modules/EvseV2G/din_server.cpp:64-120 | A request is answered as out of sequence if and only if the table does not expect it and nothing takes precedence: a closed connection, a wrong session id, or readiness after current. |
| `DinSequence.OrderNeedsTermination` | modules/EvseV2G/din_server.cpp:807-852 | Without closing on failed responses, a demand for current moves any earlier state to the charging state. |
| `DinSequence.PhasesNeverGoBack` | modules/EvseV2G/din_server.hpp:15-27 | In every run, the state never goes back from one accepted request to a later one. |
| `DinSequence.StartedOnce` | modules/EvseV2G/din_server.cpp:947-957 | In every run, the start of charging is published at most once before the request that ends the session, and at most twice in all. |
| `DinSequence.StartedYetRejectedExactly` | modules/EvseV2G/din_server.cpp:947-957 | Exactly which demands for current publish the start of charging although they are rejected. |
| `DinSequence.StartedTwice` | modules/EvseV2G/din_server.cpp:947-957 | A run from the beginning in which the start of charging is published twice. |
| `DinSequence.ChargingExactly` | modules/EvseV2G/din_server.cpp:629-703 | With boolean readiness, an open session is charging exactly in the state that expects more demands for current. |
| `DinSequence.ChargingEndsExactly` | modules/EvseV2G/din_server.cpp:637-641 | In that state, an accepted PowerDeliveryReq ends charging if and only if its readiness is 0. |
| `DinSequence.ChargingOutlivesItsPhase` | modules/EvseV2G/din_server.cpp:637-641 | A run from the beginning whose charging goes on after the charging phase has ended. |
| `IsoServer.Context.ValidateResponseCode` | modules/EvseV2G/iso_server.cpp:63-107 | The code and event after outside errors, the sequence of the mode's own table and the session id. |
| `IsoServer.Context.CheckSelection` | modules/EvseV2G/iso_server.cpp:996-1053 | The loop over the services accepts exactly offered services with charging among them and an offered payment. |
| `IsoServer.Context.HandlePaymentServiceSelection` | modules/EvseV2G/iso_server.cpp:985-1074 | With external payment authorization starts over and is next; with a contract its details are. |
| `IsoServer.Context.HandleChargeParameter` | modules/EvseV2G/iso_server.cpp:1248-1436 | An offered mode without the parameters of the other kind is accepted; the next phase of the mode follows exactly if parameters are finished. |
| `IsoServer.Context.HandlePowerDelivery` | modules/EvseV2G/iso_server.cpp:1445-1598 | Start, stop and renegotiation in both modes, with the reset of the cable check on renegotiation. |
| `IsoServer.Context.ApplyProgress` | modules/EvseV2G/iso_server.cpp:1459-1556 | What starting and stopping do to charging, and the response code before validation. |
| `IsoServer.Context.HandleCertificateInstallation` | modules/EvseV2G/iso_server.cpp:1730-1787 | A certificate that was obtained is passed on unchecked; otherwise the request is validated. Waiting happens only during an emergency shutdown, so its timeout, which reports one, changes nothing. |
| `IsoServer.Context.HandleSessionStop` | modules/EvseV2G/iso_server.cpp:1994-2041 | The session always ends after the response; pausing is refused. |
| `IsoServer.Context.HandleRequest` | modules/EvseV2G/iso_server.cpp:2043-2227 | A request is dispatched, handled and remembered; unknown ones are ignored. The answer, what becomes of the connection and the requests expected next are those of IsoAnswers. |
| `IsoServer.Context.Serve` | modules/EvseV2G/v2g_server.cpp:446-580 | The receive loop is the run over its inbox. |
| `IsoServer.Context.HandleConnection` | modules/EvseV2G/v2g_server.cpp:340-606 | A whole connection is a run from the initial state, every demand in it prepared and authorized. |
| `IsoSequence.AcceptedIsExpected` | modules/EvseV2G/iso_server.hpp:78-136 | Apart from certificates, an accepted request is expected by the table, and payment details never are accepted. |
| `IsoSequence.CertificatesKeepInv` | modules/EvseV2G/iso_server.cpp:1718-1787 | Certificate requests, checked or not, never bring a session in front of energy transfer. |
| `IsoSequence.DemandIsPrepared` | modules/EvseV2G/iso_server.cpp:45-107 | In every run, an accepted demand for energy has, since the last parameter discovery, which was finished: in DC mode a finished cable check, a precharge and a start of power delivery in order, none answered with a failure; in AC mode such a start. |
| `IsoSequence.CableCheckIsRenewed` | modules/EvseV2G/iso_server.cpp:1562-1581 | In every run, between a renegotiation and the next cable check answered Finished, the check was reported finished anew. |
| `IsoSequence.StatesAreInTheTable` | modules/EvseV2G/iso_server.cpp:2210-2212 | In every open session the state has an entry in the table it is looked up in; after the request it has one unless, in AC mode, the request was SessionStopReq or WeldingDetectionReq. |
| `IsoSequence.SequenceErrorExactly` | modules/EvseV2G/iso_server.cpp:45-107 | A request is answered as out of sequence if and only if the table of the mode does not expect it, it is one that is checked, and nothing takes precedence. |
| `IsoSequence.FailedYetOpenExactly` | modules/EvseV2G/iso_server.cpp:1582-1595 | A failed response leaves the session open if and only if a PowerDelivery that is expected, in the right session, undisturbed and in order itself starts after energy has flown or renegotiates before. |
| `IsoSequence.FailedAndWentOn` | modules/EvseV2G/iso_server.cpp:1582-1595 | A run from the beginning that goes on after a failed response. |
| `IsoAuthorization.EnergyIsAuthorized` | modules/EvseV2G/iso_server.cpp:1228-1240 | In every run, with certificate requests and renegotiations, an accepted ChargeParameterDiscoveryReq and an accepted demand for energy come after an accepted session setup, service discovery, payment selection and an authorization that had finished, in this order. |
| `IsoAuthorization.SelectionStartsOver` | modules/EvseV2G/iso_server.cpp:985-1074 | After external payment was selected, and as long as nobody reports that authorization has finished, no authorization request leads on. |
| `IsoAnswers.AnswerExactly` | modules/EvseV2G/iso_server.cpp:63-107 | The response code of every request in every session, and what becomes of the connection. |
| `IsoAnswers.SelectionExactly` | modules/EvseV2G/iso_server.cpp:996-1053 | A selection is fine if and only if all its services are on offer, charging among them, and so is its payment; charging is missed if and only if it does not stand before the first service that is not on offer. |
| `IsoAnswers.WellAnsweredExactly` | modules/EvseV2G/iso_server.cpp:63-107 | A checked request is answered without failure, and the session goes on, if and only if it is expected, in its session, undisturbed and fine itself. |
| `IsoAnswers.FollowersExactly` | modules/EvseV2G/iso_server.hpp:78-136 | After every request, well answered or not, the table of the mode expects exactly the requests that the message sequence allows next. |
| `IsoAnswers.SetupComesFirst` | modules/EvseV2G/iso_server.hpp:78-136 | A new session expects its setup and nothing else. |
| `IsoAnswers.RemembersExactly` | modules/EvseV2G/iso_server.cpp:2043-2227 | What a request changes in the session: its number once, charging, what the station has to report anew, and the last message. |
| `IsoAnswers.OpenExactly` | modules/EvseV2G/v2g_server.cpp:446-580 | A connection stays open if and only if the request does not end it and the answer, if there is one, was sent. |
| `IsoAnswers.ResetExactly` | modules/EvseV2G/v2g_server.cpp:340-606 | A new connection finds an initial session, with stop requests and emergencies cleared. |
| `Crc16.CalculateModbusCrc16` | modules/SerialCommHub/crc16.cpp:28-46 | The loops compute the checksum: what an empty register makes of the message with its first sixteen bits inverted. |
| `Crc16.ShiftByBranch` | modules/SerialCommHub/crc16.cpp:36-41 | The branch with the constant is the shift with feedback into bits 15, 13 and 0. |
| `Crc16.FeedIsLinear` | modules/SerialCommHub/crc16.cpp:33-42 | Feeding is linear in register and byte together. |
| `Crc16.ShiftsLoseNothing` | modules/SerialCommHub/crc16.cpp:35-42 | Only an empty register becomes empty. |
| `Crc16.DifferenceSurvives` | modules/SerialCommHub/crc16.cpp:32-43 | Registers that differ still differ after the same bytes. |
| `Crc16.BurstShows` | modules/SerialCommHub/crc16.cpp:33-42 | Three bytes that differ from three others in a burst of at most 16 bits lead a register to another value. |
| `Crc16.BurstChangesCrc` | modules/SerialCommHub/crc16.cpp:28-46 | Messages that differ within a burst of at most 16 bits have the same checksum only if they are equal. |
| `Crc16.ChecksumCloses` | modules/SerialCommHub/tiny_modbus_rtu.cpp:44-49 | Two bytes after a message bring the checksum to zero if and only if they are its checksum. |
| `Crc16.CrcOfInverted` | modules/SerialCommHub/crc16.cpp:29 | Starting from 0xFFFF is starting from an empty register with the first sixteen bits of the message inverted. |
| `Crc16.LeadingZeroShows` | modules/SerialCommHub/crc16.cpp:29 | A zero byte in front of a message, of any length, changes its checksum. |
| `Crc16.KnownChecksum` | modules/SerialCommHub/crc16.cpp:28-46 | The checksum of 01 03 00 00 00 0A is 0xCDC5. |
| `ModbusRtu.AppendChecksum` | modules/SerialCommHub/tiny_modbus_rtu.cpp:44-49 | The last two bytes become the checksum of the rest; a frame that is too short and all else stay. |
| `ModbusRtu.ValidateChecksum` | modules/SerialCommHub/tiny_modbus_rtu.cpp:51-59 | Accepts exactly frames of at least five bytes that end with their checksum. |
| `ModbusRtu.ValidIsZero` | modules/SerialCommHub/tiny_modbus_rtu.cpp:51-59 | A frame is valid if and only if nothing is left of its checksum. |
| `ModbusRtu.WithChecksumIsValid` | modules/SerialCommHub/tiny_modbus_rtu.cpp:44-59 | A frame that was closed is valid. |
| `ModbusRtu.BurstInvalidates` | modules/SerialCommHub/tiny_modbus_rtu.cpp:51-59 | No burst of at most 16 bits, wherever it lies, turns a valid frame into another valid frame. |
| `ModbusRtu.AdjacentBytesDetected` | modules/SerialCommHub/tiny_modbus_rtu.cpp:51-59 | Two different frames of equal length that differ only within two adjacent bytes are never both valid. |
| `ModbusRtu.DecodeReply` | modules/SerialCommHub/tiny_modbus_rtu.cpp:61-122 | The checks and the loop decode exactly the words of a reply that answers the request. |
| `ModbusRtu.DecodedExactly` | modules/SerialCommHub/tiny_modbus_rtu.cpp:64-108 | The result is not empty if and only if length, address, function, checksum and byte count all fit. |
| `ModbusRtu.DecodedWords` | modules/SerialCommHub/tiny_modbus_rtu.cpp:110-122 | A reply with n bytes of data gives a word for every two of them, from the fourth byte on. |
| `ModbusRtu.UpperHalfFirst` | modules/SerialCommHub/tiny_modbus_rtu.cpp:110-122 | The first byte of a word is its upper half. |
| `ModbusRtu.ReadReplyRoundTrip` | modules/SerialCommHub/tiny_modbus_rtu.cpp:94-122 | For every address, function and list of up to 125 registers, decoding the closed reply returns the list. |
| `ModbusRtu.DamagedReplyGivesNothing` | modules/SerialCommHub/tiny_modbus_rtu.cpp:87-90 | A reply damaged by a burst of at most 16 bits gives no registers. |
| `ModbusRtu.BuildRequest` | modules/SerialCommHub/tiny_modbus_rtu.cpp:279-304 | The frame has its header, its data if registers are written, and a valid checksum. |
| `ModbusRtu.RequestRoundTrip` | modules/SerialCommHub/tiny_modbus_rtu.cpp:283-301 | Address, function, first register and quantity can be read back from every frame, and byte count and data where there are any. |
| `ModbusRtu.KnownRequest` | modules/SerialCommHub/tiny_modbus_rtu.cpp:279-304 | The request to read ten registers from address 0 of device 1 is 01 03 00 00 00 0A C5 CD. |
| `PhysicalValues.PhysicalValue.Populate` | modules/EvseV2G/v2g_ctx.cpp:21-41 | Succeeds if and only if the value truncated by 1000 fits 16 bits; then the multiplier is the least that fits; otherwise nothing changes. |
| `PhysicalValues.TakenExactly` | modules/EvseV2G/v2g_ctx.cpp:21-41 | The values that are taken are those from -32768999 to 32767999. |
| `PhysicalValues.DividedIsQuotient` | modules/EvseV2G/v2g_ctx.cpp:27-30 | Repeated truncation by ten is one truncation by a power of ten. |
| `PhysicalValues.LeastIsLeast` | modules/EvseV2G/v2g_ctx.cpp:27-30 | A truncated value fits if and only if it was divided at least that often. |
| `PhysicalValues.EncodingIsClose` | modules/EvseV2G/tools.cpp:211-213 | The decoded value has the sign of the given one, never a larger magnitude, is less than one unit of the last digit below it, exact without a multiplier and else wrong by less than 1/3276. |

## Left out

- Sockets, TLS, SDP, serial ports, threads and timers: input and output over libraries; messages and clock readings are parameters.
- EXI encoding and decoding, certificates and signatures: foreign code; a message is what was decoded, or undecodable.
- Negotiation of the application protocol: a connection begins once a protocol is selected.
- Contract payment in ISO 15118-2: the selected option is only ever initialised to external payment, and `IsoServer` handles that case.
- Floating-point rounding: amounts are exact.
- Markets in which a limit is zero on one side for some EVSEs only, or the units of a side are not answered by the other: their rounds may end or not, as `EnergyAlternation.OneSidedRoundsEnd` shows.
- Prices, minimum phase counts and optimizer targets of the energy market: no broker reads them; the phase count of a purchase is never set.
- The branch for import and export offers of different lengths: offers are built on one grid.
- Copying of markets while listing children, and the storage of vectors: matters of the implementation language.
- Sorting and removing duplicates of timestamps by the standard library: modelled as inserting them one by one.
- Signals that only repeat the charger's state, its limit or its kind of error, and the session log.
- The three phase currents a car draws: modelled by the largest, which is all the charger compares.
- Charge modes other than AC and DC, and the switch between one and three phases.
- The minimum duration of the pauses in F and X1 on every stay: a command between ticks can enter the state again without its being new, so it does not hold of all runs.
- The selected protocol, the renegotiation reminder and the timer that a connection resets: nothing in the sequence depends on them.
- The contents of responses other than the response code, and the check of charging profiles, which only logs.
- Encoding of physical values from floating point with decimal places: above 16 bits its last assignment overwrites the scaled value.
- Replies to Modbus write requests: the test for a read reply is always true, so there is no round trip to state for them.
