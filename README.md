# PCO concurrency labs: the sequential state logic

This project models the core of three concurrent-programming lab exercises as
sequential Dafny and proves properties of that model.

- **The sleeping-barber salon** (`PcoSalon`, fifth lab). A monitor keeps the
  queue of clients in the salon, its waiting-chair counter and three flags.
  Clients enter, wait, sit and are served. The barber sleeps, is woken, serves
  the front client and closes the salon. Module `Salon` describes the monitor's
  fields as one value (`SalonState`) and each method as a step on it
  (`Access`, `Apply`). The class `PcoSalon` updates the same fields in place,
  and each of its state-changing methods is proved equal to its step. Trace lemmas over runs of
  steps prove the capacity bound and first-in-first-out service.
- **The trading simulation** (`Extractor`, `Factory`, `Wholesale`, third lab).
  Mines pay miners and sell their resource. Wholesalers buy from mines and
  factories and sell to factories. Factories buy resources, pay employees and
  build items. Each actor is a class whose `money` and `stocks` map are updated
  in place. A ghost ledger (the starting fund, sales, purchases and salaries)
  is kept equal to the money in the `Valid()` invariant of each of the three
  classes.
- **Train route validation** (`TrainTrack`, fourth lab). The constructor checks
  a train's station and shared section against its list of contacts. The
  navigation calls pick contacts at fixed offsets around the section, and
  `updateSwicthes` sets the route's switches. These are functions returning a
  `Result`, plus one method for the switch loop.

Concurrency is not modelled. In the salon and in the trading simulation each
method is one atomic step, even where the source releases the lock between
sections (listed under "Left out"). A wait on a condition variable becomes the guard or
precondition of the step it protects. A notify changes no state.

Files:

- `wrappers.dfy`: `Option` and `Result`.
- `salon.dfy`: the salon.
- `items.dfy`: item types, the cost table and stock-map operations.
- `extractor.dfy`: mines.
- `trading.dfy`: wholesalers and factories. They are one module because each
  calls the other.
- `train_track.dfy`: train routes.

## Model

| member | source | states |
|---|---|---|
| `Salon.Initial` | pco23_lab05/code/src/src/pcosalon.cpp:23-33 | the built state satisfies the invariant; capacity is waiting chairs + 1 (when the unsigned sum does not wrap); the queue is empty; the counter is 0; the barber is awake; no client is handled; the salon is open |
| `Salon.Access` | pco23_lab05/code/src/src/pcosalon.cpp:38-67 | admitted iff the queue is shorter than the capacity; a refusal changes nothing; an admission appends the id at the back and clears `barberSleeping`, and no other field changes except the counter; a chair is handed out iff someone else is at the front; that chair is `occupied % waitingChairs`, below the number of waiting chairs; the counter then rises by one (mod 2^32), otherwise it stays; with zero waiting chairs no chair is handed out, so there is no modulo by zero |
| `Salon.Apply` | pco23_lab05/code/src/src/pcosalon.cpp:70-85 | every step keeps the invariant and the capacity; sitting sets `clientSupported` only and needs the client at the front; beautifying pops exactly the front and clears `clientSupported`; going to sleep sets `barberSleeping` only; closing clears `inService` only |
| `Salon.Run` | pco23_lab05/code/src/src/pcosalon.cpp:41-46 | after any legal run of steps the invariant holds and the queue is no longer than the capacity |
| `Salon.StepIsFifo` | pco23_lab05/code/src/src/pcosalon.cpp:46-158 | one step is first-in-first-out: the client it serves followed by the queue after it is the queue before it followed by the client it admits |
| `Salon.ServiceIsFifo` | pco23_lab05/code/src/src/pcosalon.cpp:46-158 | over any legal run, the clients served followed by those still queued equal the clients queued before followed by those admitted, in order |
| `Salon.ServedInArrivalOrder` | pco23_lab05/code/src/src/pcosalon.h:192-195 | from a new salon the served clients are a prefix of the admitted clients, in admission order, and the rest of the admitted clients are still queued |
| `Salon.SeatedClientIsServedNext` | pco23_lab05/code/src/src/pcosalon.cpp:73-77 | the client that sits down is the next client the barber serves |
| `Salon.ClosedSalonStillAdmits` | pco23_lab05/code/src/src/pcosalon.cpp:41-46 | admission ignores `inService`: in every state with room, after the salon is closed, a client is still admitted at the back of the queue and the salon stays closed |
| `Salon.PcoSalon.constructor` | pco23_lab05/code/src/src/pcosalon.cpp:23-33 | the fields are `Initial(waitingChairs)`: one working chair, capacity = waiting + 1 (mod 2^32), an empty queue, counter 0, the initial flags |
| `Salon.PcoSalon.AccessSalon` | pco23_lab05/code/src/src/pcosalon.cpp:38-67 | the new fields, the return value and the chair index are those of `Access`; a refusal leaves the object unchanged |
| `Salon.PcoSalon.GoForHairCut` | pco23_lab05/code/src/src/pcosalon.cpp:70-85 | the client sits iff it is at the front of the queue; sitting is the `Sit` step and sets `clientSupported`; otherwise the client keeps waiting and nothing changes |
| `Salon.PcoSalon.GetNbClient` | pco23_lab05/code/src/src/pcosalon.cpp:113-122 | the number of clients in the queue, the one in the work chair included, which is at most the capacity |
| `Salon.PcoSalon.GoToSleep` | pco23_lab05/code/src/src/pcosalon.cpp:124-132 | the barber is marked asleep and nothing else changes |
| `Salon.PcoSalon.PickNextClient` | pco23_lab05/code/src/src/pcosalon.cpp:135-142 | the waiting clients are woken exactly when no client is being handled |
| `Salon.PcoSalon.BeautifyClient` | pco23_lab05/code/src/src/pcosalon.cpp:153-161 | the front client leaves the queue, the rest stay in order, and `clientSupported` is cleared |
| `Salon.PcoSalon.IsInService` | pco23_lab05/code/src/src/pcosalon.cpp:166-175 | returns the `inService` flag |
| `Salon.PcoSalon.EndService` | pco23_lab05/code/src/src/pcosalon.cpp:177-185 | the salon closes; the queue and `barberSleeping` stay as they were |
| `Items.Touch` | pco23_lab03/code/extractor.cpp:42 | reading `stocks[it]` adds `it` to the keys and changes no count |
| `Items.Add` | pco23_lab03/code/extractor.cpp:81 | `stocks[it] += d` changes that item's count by `d` and leaves every other count; it keeps every count non-negative when that item's new count is |
| `Extractors.Extractor.constructor` | pco23_lab03/code/extractor.cpp:21-29 | takes a raw resource (copper, sand or petrol), keeps the fund, starts `nbExtracted` at 0 and establishes the money ledger |
| `Extractors.Extractor.GetItemsForSale` | pco23_lab03/code/extractor.cpp:31-33 | the whole stock map |
| `Extractors.Extractor.Trade` | pco23_lab03/code/extractor.cpp:36-54 | a non-positive quantity or another item returns 0 and changes nothing; a shortage returns 0 and changes no count; a sale removes `qty` units, adds `cost*qty` to the money and returns that amount; no count becomes negative |
| `Extractors.Extractor.RunStep` | pco23_lab03/code/extractor.cpp:59-82 | the miner is paid iff the money covers the salary; if not, nothing changes; if so, the money falls by the salary, `nbExtracted` rises by one and the resource's count rises by one |
| `Extractors.Extractor.GetResourceMined` | pco23_lab03/code/extractor.cpp:97-99 | the constant mined resource, a raw resource |
| `Extractors.Extractor.GetAmountPaidToMiners` | pco23_lab03/code/extractor.cpp:101-103 | `nbExtracted * salary`, which is all the money that has left the mine |
| `Trading.Wholesale.constructor` | pco23_lab03/code/wholesale.cpp:25-31 | keeps the fund; no sellers yet |
| `Trading.Wholesale.SetSellers` | pco23_lab03/code/wholesale.cpp:33-39 | replaces the sellers; money and stocks stay |
| `Trading.Wholesale.GetItemsForSale` | pco23_lab03/code/wholesale.cpp:97-99 | the whole stock map |
| `Trading.Wholesale.Trade` | pco23_lab03/code/wholesale.cpp:101-130 | a non-positive quantity, an item that is not a key, or a shortage returns 0 and changes nothing; otherwise `qty` units leave the stock, `cost(it)*qty` is added to the money and returned |
| `Trading.SellerTrade` | pco23_lab03/code/wholesale.cpp:64 | the virtual call `s->trade(i, qty)` goes to the mine's or the factory's own `trade`; `nbExtracted`/`nbBuild` never change; a sale the seller can make (positive `qty` of its item, enough in stock) bills `cost*qty`, the seller gains the bill and its stock map is the old one with `qty` units of the item removed, even when the bill is 0; any other request bills 0 and changes neither the seller's money nor any of its counts |
| `Trading.Wholesale.BuyResources` | pco23_lab03/code/wholesale.cpp:41-74 | `Nothing` or an unaffordable price changes no one; once asked, the seller's side is `SellerTrade`'s: it gains `cost*qty` and loses exactly `qty` units of the item when it can sell, and keeps its money and counts otherwise; the bill is nonzero iff the seller can sell and the unit cost is nonzero; a zero bill leaves the wholesaler's money and stocks as they were, even when the seller gave its units away at cost 0; a nonzero bill is `cost*qty`, the money falls by exactly the bill and the item's count rises by `qty`; money never goes negative |
| `Trading.FactoryKind.ItemBuilt` | Lab03/code/factory.cpp:178-185 | each kind builds chip, plastic or robot |
| `Trading.FactoryKind.ResourcesNeeded` | Lab03/code/factory.cpp:178-185 | plastic needs {petrol}, chip {sand, copper}, robot {chip, plastic}; each list has no repeats and holds neither the built item nor `Nothing` |
| `Trading.ConsumeCount` | Lab03/code/factory.cpp:77-79 | taking one unit per use lowers each count by the number of times the item is used |
| `Trading.DistinctOccursOnce` | Lab03/code/factory.cpp:178-185 | in a repeat-free resource list an item occurs once if listed and never otherwise |
| `Trading.BuildCount` | Lab03/code/factory.cpp:74-86 | a build lowers each resource's count by its uses, raises the built item's count by one, and changes no other count |
| `Trading.BuildKeepsCountsNonNegative` | Lab03/code/factory.cpp:135-139 | a build made after `verifyResources` succeeded, with distinct needed resources, leaves no count negative |
| `Trading.Factory.constructor` | Lab03/code/factory.cpp:26-35 | takes a buildable item (chip, plastic or robot); keeps the item, the resource list and the fund; `nbBuild` starts at 0 |
| `Trading.Factory.OfKind` | Lab03/code/factory.cpp:178-185 | the three subclass constructors: the item and the resource list of the kind |
| `Trading.Factory.SetWholesalers` | Lab03/code/factory.cpp:37-43 | replaces the wholesalers; money, stocks and `nbBuild` stay |
| `Trading.Factory.GetItemsForSale` | Lab03/code/factory.cpp:146-148 | a map holding only the built item, with its count |
| `Trading.Factory.GetAmountPaidToWorkers` | Lab03/code/factory.cpp:170-172 | `nbBuild * salary`, which is all the money that has left the factory other than purchases |
| `Trading.Factory.VerifyResources` | Lab03/code/factory.cpp:53-61 | true iff every needed resource has a nonzero count |
| `Trading.Factory.BuildItem` | Lab03/code/factory.cpp:64-90 | without the money for the salary, nothing changes; otherwise the money falls by exactly the salary, `nbBuild` rises by one, one unit of each needed resource is taken, and one unit of the item is added |
| `Trading.Factory.AskWholesaler` | Lab03/code/factory.cpp:99-115 | one pass of the inner loop: the bill is nonzero iff the unit cost is nonzero, the factory can afford it and the wholesaler has a unit; then the factory pays the bill and gains the unit, and the wholesaler gains the bill and loses the unit; a zero bill leaves the factory's money and stocks and the wholesaler's money as they were; at cost 0, with money not negative, a wholesaler with a unit gives it away (its stocks lose one unit); a wholesaler without a unit keeps its stocks; no count of the wholesaler rises and only the resource's can fall |
| `Trading.Factory.OrderFromWholesalers` | Lab03/code/factory.cpp:97-119 | at a nonzero unit cost a unit is bought iff the factory can afford it and some wholesaler has one in stock; at cost 0 nothing is bought; a purchase costs the factory exactly one unit's price and adds one unit; the seller is the first wholesaler with a unit in stock, which gains the price and loses one unit; every other wholesaler keeps its money, and keeps its stocks unless the cost is 0 and the factory's money is not negative; when nothing is bought the factory is unchanged, and the cost is 0, the unit unaffordable, or no wholesaler has one; every wholesaler loses units of this resource only and gains none |
| `Trading.Factory.OrderIfMissing` | Lab03/code/factory.cpp:96-120 | a resource with a nonzero count is not ordered; a unit is bought only for a zero count, at a nonzero price the factory can pay, which it pays; when none is bought for a zero count, the price is 0, too high, or no wholesaler had a unit before the order; a resource no wholesaler had stays out of stock, and any other resource a wholesaler had is still in some wholesaler's stock; for a resource in stock no wholesaler changes; when nothing is bought no wholesaler's money changes; when a unit is bought, the seller gains its price and loses the unit and every other wholesaler keeps its money, and at a nonzero price its stocks |
| `Trading.Factory.OrderTurn` | Lab03/code/factory.cpp:96-120 | one turn of the loop keeps the order's record: the purchases so far (only needed zero-count resources, once each, paid for out of the money) and the turn-by-turn `funds`/`boughtAt`, extended by this turn, with the reason any missing resource was not bought |
| `Trading.Factory.OrderResources` | Lab03/code/factory.cpp:92-125 | only needed resources with a zero count are bought, one unit each at most; the money falls by exactly the cost of what was bought; each count rises by exactly the units bought; money never goes negative; turn by turn, `funds` and `boughtAt` record the money before each turn and whether it bought, and every purchase cost that turn's nonzero price out of funds that covered it; every needed resource with a zero count that was not bought had a price of 0, cost more than the money at its turn, or is in no wholesaler's stock at the end; with a repeat-free resource list, in no wholesaler's stock from the start of the order |
| `Trading.Factory.Trade` | Lab03/code/factory.cpp:150-168 | a non-positive quantity or another item returns 0 and changes nothing; a shortage returns 0 and changes no count; a sale removes `qty` units, adds `materialCost*qty` to the money and returns that amount; no count becomes negative |
| `Trading.Factory.RunStep` | Lab03/code/factory.cpp:134-142 | with every needed resource in stock, it builds iff the money covers the salary, with `BuildItem`'s new money, `nbBuild` and stocks, buys nothing and leaves the wholesalers unchanged; with one missing, it does not build, keeps `nbBuild`, and its money and counts change exactly by what it bought, with `OrderResources`' turn-by-turn record and its reasons for each missing resource not bought; no count becomes negative when the needed resources are distinct; the money ledger is kept |
| `TrainTracks.Find` | Lab04/code/src/trainTrack.cpp:11-13 | the first index of the contact, or none exactly when the contact is absent |
| `TrainTracks.NewTrainTrack` | Lab04/code/src/trainTrack.cpp:8-34 | each of the four errors holds iff its condition holds and every earlier check passed (station missing; begin missing; end missing; end's first index not after begin's); success iff all pass; on success the route is well formed and its indexes are the first occurrences |
| `TrainTracks.ContactAt` | Lab04/code/src/trainTrack.cpp:41-49 | the contact at an index, present exactly when the index lies on the track |
| `TrainTracks.StationContact` | Lab04/code/src/trainTrack.cpp:36-38 | the station contact, a contact of the track |
| `TrainTracks.SharedSectionStartContact` | Lab04/code/src/trainTrack.cpp:40-42 | the contact three before the section's begin, `track[begin - 3]`, which exists iff the begin index is at least 3 |
| `TrainTracks.SharedSectionEndContact` | Lab04/code/src/trainTrack.cpp:44-46 | the contact one after the section's end, `track[end + 1]`, which exists iff the end index is below length − 1 |
| `TrainTracks.SwitchesUpdateContact` | Lab04/code/src/trainTrack.cpp:49 | the contact one before the section's begin, `track[begin - 1]`, which exists iff the begin index is at least 1 |
| `TrainTracks.AcceptedRouteTargetsGivenContacts` | Lab04/code/src/trainTrack.h:39-42 | an accepted route waits at the station contact it was given, and at the contacts at the fixed offsets from the first occurrences of the section's ends |
| `TrainTracks.UpdateSwitches` | Lab04/code/src/trainTrack.cpp:48-54 | waits at the switch-update contact, then issues one command per configured switch, in list order, with delay 0 |
| `TrainTracks.AcceptedRouteCanLeaveTrack` | Lab04/code/src/trainTrack.cpp:27-33 | a route the constructor accepts can have no contact three before its section and none after it |
| `TrainTracks.NewCheckedTrainTrack` | Lab04/code/src/trainTrack.cpp:41-49 | the constructor plus the two range checks: its failures include every failure of the original; a section too close to the start or the end of the track is refused, each with its own error; it accepts a route exactly when the original does and both range checks pass; every route it accepts is the original's route, and all three navigation contacts exist |

## Left out

- Threads, mutexes and condition variables are not modelled. This covers the wait/notify hand-off between barber and clients, the lost wakeups it allows (`waitClientAtChair` waits with no predicate), and liveness. A sequential model cannot state them.
- The animation helpers and console output of the salon are not modelled. They unlock and relock the mutex mid-step, so a client's front check can run after another client entered; each method, with the stretches the helpers run unlocked, is one atomic step here.
- `waitingForHairToGrow`, `walkAround`, `goHome` and `waitClientAtChair` change no field and are not modelled.
- The barber and client thread loops are not modelled. They only decide which sequences of steps occur; `Legal` accepts every sequence whose steps are enabled.
- Salon.PcoSalon.GoForHairCut: returns `false` where the source blocks until the client is at the front; its later wait for the end of the haircut changes no field.
- Salon.Access: does not bound `nbWaitingChairsOccupied` by the number of waiting chairs, because the code only increments it (mod 2^32); only the chair index it yields is bounded.
- `accessSalon` tests only the queue length and never `_inService`, so the model admits a client after closing while there is room; `Salon.ClosedSalonStillAdmits` states it. The client loop checks `isInService` before it retries; that loop is not modelled.
- The cost tables and the seller base class (`costs.h`, `seller.h`) are not part of this model. Unit costs and salaries are an arbitrary table of type `Costs`, shared by every actor. The initial stocks are a constructor parameter.
- `chooseRandomSeller`, `chooseRandomItem` and `rand()` become parameters of `BuyResources`; `usleep` and the GUI calls (`interface->...`) are left out.
- The `run` loops of `Extractor`, `Factory` and `Wholesale` are modelled as one iteration each (`RunStep`, `RunStep`, `BuyResources`). Stop requests belong to the thread library. The empty-wholesaler and empty-seller warnings on the console are not modelled, and neither is the early return that follows the first: `Factory::run` returns before its loop when the factory has no wholesalers (factory.cpp:128-131), so such a factory never builds, while `Trading.Factory.RunStep` has no such case and builds as usual. `Wholesale::run` returns the same way without sellers (wholesale.cpp:79-82); `BuyResources` needs a seller from the list, so it cannot be called then.
- The trading methods that release the lock between sections are each one atomic step here, so another thread's interleaving between the sections is not modelled: `Extractor::run` (extractor.cpp:62-73 and 80-82, with the unlocked `nbExtracted++` at line 78 between them) as `Extractors.Extractor.RunStep`; `Factory::buildItem` (factory.cpp:67-80 and 85-87) as `Trading.Factory.BuildItem`; `Factory::trade`, whose unlocked pre-check at factory.cpp:151 and locked re-check read the same stock here, as `Trading.Factory.Trade`; `Factory::orderResources` (factory.cpp:99-104 and 112-115 around the unlocked `trade` call) as `Trading.Factory.AskWholesaler`; and `Wholesale::buyResources` (wholesale.cpp:57-62 and 70-73 around the unlocked `trade` call) as `Trading.Wholesale.BuyResources`.
- A unit cost of 0 is a case the source handles without a special branch: the seller's `trade` removes the units and bills 0, and the buyer drops the purchase (wholesale.cpp:66-68, factory.cpp:108-110), so the units vanish. The model keeps this behaviour and states it in `Trading.SellerTrade`, `Trading.Wholesale.BuyResources` and `Trading.Factory.AskWholesaler`.
- Trading.Factory.OrderFromWholesalers: at a unit cost of 0 it states only that no wholesaler's money changes and that every wholesaler loses units of this resource only, not which wholesalers gave a unit away, because with a wholesaler listed twice that depends on aliasing.
- Trading.Factory.OrderResources: the wholesalers' money and their stocks of other resources are not restated for the whole order; `Trading.Factory.OrderIfMissing` states them for each turn. For a resource list with a repeat, a missing resource not bought because no wholesaler had it is stated as out of stock at the end of the order only, not at the start, because a free unit given away at an earlier turn of the same resource can empty a wholesaler's stock; all three factory kinds have repeat-free lists, for which the start of the order is stated.
- Trading.Factory.VerifyResources: does not model the zero entries `stocks[item]` inserts for missing keys in `verifyResources`, `orderResources` and `getItemsForSale`. A factory's key set is never read: every count is read as `Count`, and `getItemsForSale` exposes only the built item.
- Money is an unbounded integer. The source's `int` arithmetic overflowing would be undefined behaviour in C++.
- Trading.Factory.RunStep: proves no negative count only for repeat-free resource lists, which all three factory kinds have; a list with a repeated resource could go below zero in the source too.
- Sellers are a datatype with a mine case and a factory case, in place of the `Seller*` references. A wholesaler selling to another wholesaler is not modelled.
- `getItemBuilt` reads the constant field `itemBuilt`, which the model reads directly. `getMaterialCost` is the cost-table lookup of the built item, `MaterialCost` here, and `getEmployeeSalary(getEmployeeThatProduces(itemBuilt))` is the salary lookup, `EmployeeCost` here. The `setInterface` functions are GUI wiring and are left out.
- `attendre_contact` and `diriger_aiguillage` are hardware calls. The model returns the contact waited for and the switch commands issued.
- The constructor's `throw new invalid_argument` becomes a `Failure` result; how the exception is caught is not modelled.
- Two-train arbitration (`synchro`), the locomotive behaviour and the program's wiring (`cppmain`) are not part of this model.

## Findings

| source | as written | input that shows it | evidently intended | confidence | as-written member | corrected member |
|---|---|---|---|---|---|---|
| Lab04/code/src/trainTrack.cpp:27-33 | the constructor checks that the contacts are on the track and that the end follows the begin, but not that the contacts three before the section and one after it exist; `travelToSharedSectionStart` and `travelToSharedSectionEnd` then read through `Contact*` addresses outside the vector | track [1, 2, 3], station 1, section begin 1, end 3 is accepted; the begin is at index 0 and the end at the last index | refuse a route whose section begins before index 3 or ends at the last contact, as the navigation offsets require | medium, not executed | `TrainTracks.AcceptedRouteCanLeaveTrack` | `TrainTracks.NewCheckedTrainTrack` |
