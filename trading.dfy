/**
 * The wholesalers and factories of the third lab (classes Wholesale and
 * Factory). They are one module because each calls the other: a factory buys
 * from its wholesalers and a wholesaler buys from factories. Each method is
 * one atomic step here: where the source has several sections under
 * `resourcesProtector`, the sections and the unlocked code between them
 * (checks, calls to other sellers) run without interruption.
 */
module Trading {
  import opened Items
  import opened Extractors

  /** The sellers a wholesaler buys from, in place of the Seller base class. */
  datatype Seller = FromExtractor(extractor: Extractor) | FromFactory(factory: Factory) {

    function Object(): object {
      if FromExtractor? then extractor else factory
    }

    function SellerCosts(): Costs {
      if FromExtractor? then extractor.costs else factory.costs
    }

    /** The one item the seller sells: the mine's resource or the factory's build. */
    function Item(): ItemType {
      if FromExtractor? then extractor.resourceExtracted else factory.itemBuilt
    }

    function Money(): int
      reads Object()
    {
      if FromExtractor? then extractor.money else factory.money
    }

    function Stocks(): Stocks
      reads Object()
    {
      if FromExtractor? then extractor.stocks else factory.stocks
    }

    /** The units extracted or built so far. */
    function Produced(): nat
      reads Object()
    {
      if FromExtractor? then extractor.nbExtracted else factory.nbBuild
    }

    /** A trade of `qty` units of `i` goes through when `m` is the seller's stock. */
    predicate Sells(m: Stocks, i: ItemType, qty: int) {
      qty > 0 && i == Item() && Count(m, i) >= qty
    }

    ghost predicate Valid()
      reads Object()
    {
      if FromExtractor? then extractor.Valid() else factory.Valid()
    }
  }

  /** `s->trade(i, qty)`, dispatched to the seller's own class. A sale the
      seller can make bills its price for `qty` units, which the seller gains
      while its count of `i` falls by `qty`; any other request bills 0 and
      changes no count and no money. */
  method SellerTrade(s: Seller, i: ItemType, qty: int) returns (bill: int)
    requires s.Valid()
    modifies s.Object()
    ensures s.Valid() && s.Produced() == old(s.Produced())
    ensures s.FromFactory? ==> s.factory.wholesalers == old(s.factory.wholesalers)
    ensures s.Sells(old(s.Stocks()), i, qty) ==>
              && bill == s.SellerCosts().unitCost(i) * qty
              && s.Money() == old(s.Money()) + bill
              && s.Stocks() == Add(old(s.Stocks()), i, -qty)
    ensures !s.Sells(old(s.Stocks()), i, qty) ==>
              && bill == 0
              && s.Money() == old(s.Money())
              && forall k :: Count(s.Stocks(), k) == Count(old(s.Stocks()), k)
  {
    match s {
      case FromExtractor(e) =>
        bill := e.Trade(i, qty);
      case FromFactory(f) =>
        bill := f.Trade(i, qty);
    }
  }

  class Wholesale {
    const uniqueId: int
    const costs: Costs
    var money: int
    var stocks: Stocks
    var sellers: seq<Seller>

    /** Ledger: the starting fund, what sales brought in and what purchases cost. */
    ghost const initialFund: int
    ghost var revenue: int
    ghost var spent: int

    /** No count is negative, every seller prices with the same table, and
        every unit of money is accounted for: the fund, plus sales, minus
        purchases. */
    ghost predicate Valid()
      reads this
    {
      && NonNegative(stocks)
      && (forall s :: s in sellers ==> s.SellerCosts() == costs)
      && money == initialFund + revenue - spent
    }

    /** The stocks the seller base class starts with are not part of this
        model; they are a parameter here. */
    constructor (uniqueId: int, fund: int, costs: Costs, initialStocks: Stocks)
      requires NonNegative(initialStocks)
      ensures Valid()
      ensures this.uniqueId == uniqueId && this.costs == costs
      ensures money == fund && stocks == initialStocks && sellers == []
    {
      this.uniqueId := uniqueId;
      this.costs := costs;
      money := fund;
      stocks := initialStocks;
      sellers := [];
      initialFund := fund;
      revenue := 0;
      spent := 0;
    }

    method SetSellers(sellers: seq<Seller>)
      requires Valid()
      requires forall s :: s in sellers ==> s.SellerCosts() == costs
      modifies this
      ensures Valid()
      ensures this.sellers == sellers && money == old(money) && stocks == old(stocks)
    {
      this.sellers := sellers;
    }

    method GetItemsForSale() returns (m: Stocks)
      ensures m == stocks
    {
      m := stocks;
    }

    /** trade: sell `qty` units of `it`. The item must be a key of the stock
        map, whatever its count, and enough units must be in stock; otherwise
        nothing changes and 0 is returned. */
    method Trade(it: ItemType, qty: int) returns (bill: int)
      requires Valid()
      modifies this
      ensures Valid() && sellers == old(sellers)
      ensures qty <= 0 || it !in old(stocks) || old(stocks)[it] < qty ==>
                bill == 0 && money == old(money) && stocks == old(stocks)
      ensures qty > 0 && it in old(stocks) && old(stocks)[it] >= qty ==>
                && bill == costs.unitCost(it) * qty
                && money == old(money) + bill
                && stocks == Add(old(stocks), it, -qty)
    {
      // The search over the items for sale (a copy of the stock map).
      var isAnItemForSale := false;
      var items := stocks.Keys;
      while items != {} && !isAnItemForSale
        invariant items <= stocks.Keys
        invariant isAnItemForSale ==> it in stocks
        invariant !isAnItemForSale ==> it !in stocks.Keys - items
        decreases |items|
      {
        var item :| item in items;
        if it == item {
          isAnItemForSale := true;
        }
        items := items - {item};
      }

      if qty <= 0 || !isAnItemForSale {
        return 0;
      }
      if stocks[it] < qty {
        return 0;
      }
      stocks := Add(stocks, it, -qty);
      bill := costs.unitCost(it) * qty;
      money := money + bill;
      revenue := revenue + bill;
    }

    /** buyResources, with the random seller, item and quantity as parameters
        (the quantity is drawn from 1 to 5). The wholesaler asks the seller
        only for a real item it can pay for; it returns the seller's bill, and
        books the purchase only when that bill is not 0. */
    method BuyResources(s: Seller, i: ItemType, qty: int) returns (bill: int)
      requires Valid() && s in sellers && s.Valid()
      requires 1 <= qty <= 5
      modifies this, s.Object()
      ensures Valid() && s.Valid() && sellers == old(sellers)
      ensures i == Nothing || old(money) < qty * costs.unitCost(i) ==>
                bill == 0 && unchanged(this) && unchanged(s.Object())
      // The seller's side, once it has been asked.
      ensures i != Nothing && old(money) >= qty * costs.unitCost(i) ==>
                && s.Produced() == old(s.Produced())
                && (s.FromFactory? ==> s.factory.wholesalers == old(s.factory.wholesalers))
                && (s.Sells(old(s.Stocks()), i, qty) ==>
                      && s.Money() == old(s.Money()) + costs.unitCost(i) * qty
                      && s.Stocks() == Add(old(s.Stocks()), i, -qty))
                && (!s.Sells(old(s.Stocks()), i, qty) ==>
                      && s.Money() == old(s.Money())
                      && forall k :: Count(s.Stocks(), k) == Count(old(s.Stocks()), k))
      // The wholesaler's side.
      ensures bill != 0 <==>
                && i != Nothing && old(money) >= qty * costs.unitCost(i)
                && s.Sells(old(s.Stocks()), i, qty) && costs.unitCost(i) != 0
      ensures bill == 0 ==> money == old(money) && stocks == old(stocks)
      ensures bill != 0 ==>
                && bill == costs.unitCost(i) * qty
                && money == old(money) - bill
                && stocks == Add(old(stocks), i, qty)
      ensures old(money) >= 0 ==> money >= 0
    {
      if i == Nothing {
        return 0;
      }
      var price := qty * costs.unitCost(i);
      assert price == costs.unitCost(i) * qty;
      assert price != 0 <==> costs.unitCost(i) != 0;
      if money < price {
        return 0;
      }
      bill := SellerTrade(s, i, qty);
      if bill == 0 {
        return 0;
      }
      money := money - bill;
      stocks := Add(stocks, i, qty);
      spent := spent + bill;
    }
  }

  /** The three kinds of factory and what each builds from what. */
  datatype FactoryKind = PlasticFactory | ChipFactory | RobotFactory {

    function ItemBuilt(): (it: ItemType)
      ensures IsBuildable(it)
    {
      match this
      case PlasticFactory => Plastic
      case ChipFactory => Chip
      case RobotFactory => Robot
    }

    function ResourcesNeeded(): (needed: seq<ItemType>)
      ensures Distinct(needed) && ItemBuilt() !in needed && Nothing !in needed
    {
      match this
      case PlasticFactory => [Petrol]
      case ChipFactory => [Sand, Copper]
      case RobotFactory => [Chip, Plastic]
    }
  }

  /** The items a factory may build. */
  predicate IsBuildable(it: ItemType) {
    it == Chip || it == Plastic || it == Robot
  }

  predicate Distinct(s: seq<ItemType>) {
    forall i, j :: 0 <= i < j < |s| ==> s[i] != s[j]
  }

  /** verifyResources' specification: no needed resource has a zero count. */
  predicate HasResources(m: Stocks, needed: seq<ItemType>) {
    forall r :: r in needed ==> Count(m, r) != 0
  }

  /** The stocks after one unit of each element of `used` is taken, in order. */
  function Consume(m: Stocks, used: seq<ItemType>): Stocks
    decreases |used|
  {
    if used == [] then m
    else Add(Consume(m, used[..|used| - 1]), used[|used| - 1], -1)
  }


  /** `m` holds no more of any item than `m0`, and as much of every item but `x`. */
  predicate Drained(m0: Stocks, m: Stocks, x: ItemType) {
    && (forall k :: Count(m, k) <= Count(m0, k))
    && (forall k :: k != x ==> Count(m, k) == Count(m0, k))
  }

  lemma DrainedTwice(m0: Stocks, m1: Stocks, m2: Stocks, x: ItemType)
    requires Drained(m0, m1, x) && Drained(m1, m2, x)
    ensures Drained(m0, m2, x)
  {
  }

  /** The first `n` turns of orderResources, one per needed resource:
      `boughtAt[i]` says whether a unit of `needed[i]` was bought at turn i and
      `funds[i]` is the money at that turn. The money starts at `initial` and
      falls by the price of each unit bought, and a unit is bought only at a
      nonzero price the factory can pay. */
  ghost predicate TurnsRecorded(costs: Costs, needed: seq<ItemType>, n: nat, boughtAt: seq<bool>, funds: seq<int>,
                                initial: int) {
    && n <= |needed| && |boughtAt| == n && |funds| == n + 1 && funds[0] == initial
    && (forall i {:trigger boughtAt[i]} :: 0 <= i < n ==>
          funds[i + 1] == funds[i] - (if boughtAt[i] then costs.unitCost(needed[i]) else 0))
    && (forall i :: 0 <= i < n && boughtAt[i] ==>
          funds[i] >= costs.unitCost(needed[i]) && costs.unitCost(needed[i]) != 0)
  }

  /** One more turn: `got` says whether a unit of `needed[n]` was bought, and
      `money` is what the factory has after it. */
  lemma TurnRecorded(costs: Costs, needed: seq<ItemType>, n: nat, boughtAt: seq<bool>, funds: seq<int>, initial: int,
                     got: bool, money: int)
    requires TurnsRecorded(costs, needed, n, boughtAt, funds, initial) && n < |needed|
    requires money == funds[n] - (if got then costs.unitCost(needed[n]) else 0)
    requires got ==> funds[n] >= costs.unitCost(needed[n]) && costs.unitCost(needed[n]) != 0
    ensures TurnsRecorded(costs, needed, n + 1, boughtAt + [got], funds + [money], initial)
  {
  }

  /** What orderResources has bought so far, from money `money0` and stocks
      `stocks0` to `money` and `stocks`: one unit of each element of
      `bought`, each a needed resource whose count was zero, none twice. */
  ghost predicate Purchases(costs: Costs, needed: seq<ItemType>, money0: int, stocks0: Stocks,
                            bought: seq<ItemType>, money: int, stocks: Stocks) {
    && money == money0 - TotalCost(costs, bought)
    && stocks == Restock(stocks0, bought)
    && (forall p :: 0 <= p < |bought| ==> bought[p] in needed && Count(stocks0, bought[p]) == 0)
    && (forall p, q :: 0 <= p < q < |bought| ==> bought[p] != bought[q])
    && (money0 >= 0 ==> money >= 0)
  }

  /** The record of the first `j` turns of orderResources: `boughtAt` and
      `funds` as in TurnsRecorded, `funds[j]` is the money now, and a missing
      resource not bought was free, too dear at its turn, or in `soldOut`. */
  ghost predicate TurnsKept(costs: Costs, needed: seq<ItemType>, j: nat, money0: int, stocks0: Stocks,
                            bought: seq<ItemType>, boughtAt: seq<bool>, funds: seq<int>,
                            soldOut: set<ItemType>, money: int) {
    && TurnsRecorded(costs, needed, j, boughtAt, funds, money0) && funds[j] == money
    && (forall i :: 0 <= i < j && boughtAt[i] ==> needed[i] in bought)
    && (forall i :: 0 <= i < j && needed[i] !in bought && Count(stocks0, needed[i]) == 0 ==>
          || costs.unitCost(needed[i]) == 0
          || funds[i] < costs.unitCost(needed[i])
          || needed[i] in soldOut)
  }

  /** The purchases after one more turn, in which orderIfMissing took
      `money` and `stocks` to `money'` and `stocks'`, buying `r` or not. */
  lemma PurchasedOneMore(costs: Costs, needed: seq<ItemType>, money0: int, stocks0: Stocks, bought: seq<ItemType>,
                         money: int, stocks: Stocks, r: ItemType, got: bool,
                         bought': seq<ItemType>, money': int, stocks': Stocks)
    requires Purchases(costs, needed, money0, stocks0, bought, money, stocks) && r in needed
    requires bought' == if got then bought + [r] else bought
    requires !got ==> money' == money && stocks' == stocks
    requires got ==>
               && Count(stocks, r) == 0
               && costs.unitCost(r) != 0 && money >= costs.unitCost(r)
               && money' == money - costs.unitCost(r)
               && stocks' == Add(stocks, r, 1)
    ensures Purchases(costs, needed, money0, stocks0, bought', money', stocks')
  {
    if got {
      RestockCount(stocks0, bought, r);
      assert (bought + [r])[..|bought|] == bought;
    }
  }

  /** The record after turn `j`, in which orderIfMissing for `needed[j]` took
      `money` to `money'`, buying a unit or not (`got`); `noneLeft` says
      whether the resource is then in no wholesaler's stock. */
  lemma KeptOneMore(costs: Costs, needed: seq<ItemType>, j: nat, money0: int, stocks0: Stocks,
                    bought: seq<ItemType>, boughtAt: seq<bool>, funds: seq<int>, soldOut: set<ItemType>,
                    money: int, stocks: Stocks, got: bool, noneLeft: bool,
                    bought': seq<ItemType>, boughtAt': seq<bool>, funds': seq<int>, soldOut': set<ItemType>,
                    money': int)
    requires TurnsKept(costs, needed, j, money0, stocks0, bought, boughtAt, funds, soldOut, money)
    requires j < |needed| && stocks == Restock(stocks0, bought)
    requires bought' == (if got then bought + [needed[j]] else bought) && boughtAt' == boughtAt + [got]
    requires funds' == funds + [money'] && soldOut' == if noneLeft then soldOut + {needed[j]} else soldOut
    requires !got ==> money' == money
    requires got ==>
               && costs.unitCost(needed[j]) != 0 && money >= costs.unitCost(needed[j])
               && money' == money - costs.unitCost(needed[j])
    requires !got && Count(stocks, needed[j]) == 0 ==>
               costs.unitCost(needed[j]) == 0 || money < costs.unitCost(needed[j]) || noneLeft
    ensures TurnsKept(costs, needed, j + 1, money0, stocks0, bought', boughtAt', funds', soldOut', money')
  {
    RestockCount(stocks0, bought, needed[j]);
    TurnRecorded(costs, needed, j, boughtAt, funds, money0, got, money');
  }

  /** A sequence without repetitions holds each of its elements once. */
  lemma {:induction false} DistinctOnce(s: seq<ItemType>)
    requires forall p, q :: 0 <= p < q < |s| ==> s[p] != s[q]
    ensures forall k :: k in s ==> multiset(s)[k] == 1
    decreases |s|
  {
    if s != [] {
      var front, last := s[..|s| - 1], s[|s| - 1];
      assert s == front + [last];
      DistinctOnce(front);
      forall p | 0 <= p < |front|
        ensures front[p] != last
      {
        assert front[p] == s[p];
      }
    }
  }

  /** The stocks after one unit of each element of `added` is added, in order. */
  function Restock(m: Stocks, added: seq<ItemType>): Stocks
    decreases |added|
  {
    if added == [] then m
    else Add(Restock(m, added[..|added| - 1]), added[|added| - 1], 1)
  }

  /** Restocking raises each count by the number of times the item is added. */
  lemma {:induction false} RestockCount(m: Stocks, added: seq<ItemType>, k: ItemType)
    ensures Count(Restock(m, added), k) == Count(m, k) + multiset(added)[k]
    decreases |added|
  {
    if added != [] {
      var front, last := added[..|added| - 1], added[|added| - 1];
      assert added == front + [last];
      RestockCount(m, front, k);
    }
  }

  /** Consuming lowers each count by the number of times the item is used. */
  lemma {:induction false} ConsumeCount(m: Stocks, used: seq<ItemType>, k: ItemType)
    ensures Count(Consume(m, used), k) == Count(m, k) - multiset(used)[k]
    decreases |used|
  {
    if used != [] {
      var front, last := used[..|used| - 1], used[|used| - 1];
      assert used == front + [last];
      ConsumeCount(m, front, k);
    }
  }

  /** With distinct items, each occurs at most once. */
  lemma {:induction false} DistinctOccursOnce(s: seq<ItemType>, k: ItemType)
    requires Distinct(s)
    ensures multiset(s)[k] <= 1
    ensures multiset(s)[k] == 1 <==> k in s
    decreases |s|
  {
    if s != [] {
      var front, last := s[..|s| - 1], s[|s| - 1];
      assert s == front + [last];
      assert Distinct(front);
      DistinctOccursOnce(front, k);
      assert last !in front;
    }
  }

  /** A build takes one unit per use of each needed resource and adds one
      unit of the built item. */
  lemma BuildCount(m: Stocks, needed: seq<ItemType>, built: ItemType, k: ItemType)
    ensures Count(Add(Consume(m, needed), built, 1), k)
            == Count(m, k) - multiset(needed)[k] + (if k == built then 1 else 0)
  {
    ConsumeCount(m, needed, k);
  }

  /** A build made after verifyResources succeeded leaves no count negative
      when the needed resources are distinct. */
  lemma BuildKeepsCountsNonNegative(m: Stocks, needed: seq<ItemType>, built: ItemType)
    requires Distinct(needed) && HasResources(m, needed) && NonNegative(m)
    ensures NonNegative(Add(Consume(m, needed), built, 1))
  {
    var after := Add(Consume(m, needed), built, 1);
    forall k | k in after
      ensures after[k] >= 0
    {
      DistinctOccursOnce(needed, k);
      BuildCount(m, needed, built, k);
      assert Count(after, k) == after[k];
    }
  }

  class Factory {
    const uniqueId: int
    const itemBuilt: ItemType
    const resourcesNeeded: seq<ItemType>
    const costs: Costs
    var money: int
    var stocks: Stocks
    var nbBuild: nat
    var wholesalers: seq<Wholesale>

    /** Ledger: the starting fund, what sales brought in and what purchases cost. */
    ghost const initialFund: int
    ghost var revenue: int
    ghost var spent: int

    /** The salary of the employee that builds this factory's item. */
    function EmployeeCost(): int {
      costs.employeeSalary(itemBuilt)
    }

    /** getMaterialCost */
    function MaterialCost(): int {
      costs.unitCost(itemBuilt)
    }

    /** The factory builds a buildable item, and every unit of money is
        accounted for: the fund, plus sales, minus purchases, minus one salary
        per build. */
    ghost predicate Valid()
      reads this
    {
      && IsBuildable(itemBuilt)
      && money == initialFund + revenue - spent - nbBuild * EmployeeCost()
    }

    /** Every wholesaler prices with this factory's cost table and is valid. */
    ghost predicate WholesalersValid()
      reads this, set w | w in wholesalers
    {
      forall w :: w in wholesalers ==> w.costs == costs && w.Valid()
    }

    /** The stocks the seller base class starts with are not part of this
        model; they are a parameter here. */
    constructor (uniqueId: int, fund: int, builtItem: ItemType, resourcesNeeded: seq<ItemType>,
                 costs: Costs, initialStocks: Stocks)
      requires IsBuildable(builtItem)
      ensures Valid()
      ensures this.uniqueId == uniqueId && this.costs == costs
      ensures itemBuilt == builtItem && this.resourcesNeeded == resourcesNeeded
      ensures money == fund && stocks == initialStocks && nbBuild == 0 && wholesalers == []
    {
      this.uniqueId := uniqueId;
      itemBuilt := builtItem;
      this.resourcesNeeded := resourcesNeeded;
      this.costs := costs;
      money := fund;
      stocks := initialStocks;
      nbBuild := 0;
      wholesalers := [];
      initialFund := fund;
      revenue := 0;
      spent := 0;
    }

    /** The constructors of PlasticFactory, ChipFactory and RobotFactory. */
    constructor OfKind(kind: FactoryKind, uniqueId: int, fund: int, costs: Costs, initialStocks: Stocks)
      ensures Valid()
      ensures this.uniqueId == uniqueId && this.costs == costs
      ensures itemBuilt == kind.ItemBuilt() && resourcesNeeded == kind.ResourcesNeeded()
      ensures money == fund && stocks == initialStocks && nbBuild == 0 && wholesalers == []
    {
      this.uniqueId := uniqueId;
      itemBuilt := kind.ItemBuilt();
      resourcesNeeded := kind.ResourcesNeeded();
      this.costs := costs;
      money := fund;
      stocks := initialStocks;
      nbBuild := 0;
      wholesalers := [];
      initialFund := fund;
      revenue := 0;
      spent := 0;
    }

    method SetWholesalers(wholesalers: seq<Wholesale>)
      requires Valid()
      requires forall w :: w in wholesalers ==> w.costs == costs
      modifies this
      ensures Valid()
      ensures this.wholesalers == wholesalers
      ensures money == old(money) && stocks == old(stocks) && nbBuild == old(nbBuild)
    {
      this.wholesalers := wholesalers;
    }

    /** getItemsForSale: only the built item, with its count. */
    method GetItemsForSale() returns (m: Stocks)
      ensures m.Keys == {itemBuilt} && m[itemBuilt] == Count(stocks, itemBuilt)
    {
      m := map[itemBuilt := Count(stocks, itemBuilt)];
    }

    /** getAmountPaidToWorkers: one salary per build, which is all the money
        that went out of the factory other than purchases. */
    method GetAmountPaidToWorkers() returns (paid: int)
      requires Valid()
      ensures paid == nbBuild * EmployeeCost()
      ensures paid == initialFund + revenue - spent - money
    {
      paid := nbBuild * costs.employeeSalary(itemBuilt);
    }

    /** verifyResources */
    method VerifyResources() returns (ok: bool)
      ensures ok <==> HasResources(stocks, resourcesNeeded)
    {
      for j := 0 to |resourcesNeeded|
        invariant forall k :: 0 <= k < j ==> Count(stocks, resourcesNeeded[k]) != 0
      {
        if Count(stocks, resourcesNeeded[j]) == 0 {
          return false;
        }
      }
      return true;
    }

    /** buildItem: without the money for an employee nothing changes; otherwise
        the factory pays one salary, takes one unit of each needed resource and
        gains one unit of its item. */
    method BuildItem() returns (built: bool)
      requires Valid()
      modifies this
      ensures Valid() && wholesalers == old(wholesalers)
      ensures built <==> old(money) >= EmployeeCost()
      ensures !built ==> money == old(money) && stocks == old(stocks) && nbBuild == old(nbBuild)
      ensures built ==>
                && money == old(money) - EmployeeCost()
                && nbBuild == old(nbBuild) + 1
                && stocks == Add(Consume(old(stocks), resourcesNeeded), itemBuilt, 1)
    {
      var employeeCost := costs.employeeSalary(itemBuilt);
      if money < employeeCost {
        return false;
      }
      money := money - employeeCost;
      nbBuild := nbBuild + 1;
      assert nbBuild * employeeCost == old(nbBuild) * employeeCost + employeeCost;
      for j := 0 to |resourcesNeeded|
        invariant stocks == Consume(old(stocks), resourcesNeeded[..j])
        invariant Valid() && wholesalers == old(wholesalers)
        invariant money == old(money) - employeeCost && nbBuild == old(nbBuild) + 1
      {
        assert resourcesNeeded[..j + 1][..j] == resourcesNeeded[..j];
        stocks := Add(stocks, resourcesNeeded[j], -1);
      }
      assert resourcesNeeded[..|resourcesNeeded|] == resourcesNeeded;
      stocks := Add(stocks, itemBuilt, 1);
      built := true;
    }

    /** One pass of the inner loop of orderResources: when this factory can
        afford one unit of `resource`, ask `wholesaler` for it, and book the
        purchase when the bill is not 0. */
    method AskWholesaler(wholesaler: Wholesale, resource: ItemType) returns (bill: int)
      requires Valid() && wholesaler.Valid() && wholesaler.costs == costs
      modifies this, wholesaler
      ensures Valid() && wholesaler.Valid()
      ensures wholesalers == old(wholesalers) && nbBuild == old(nbBuild)
      ensures bill != 0 <==>
                && costs.unitCost(resource) != 0
                && old(money) >= costs.unitCost(resource)
                && Count(old(wholesaler.stocks), resource) >= 1
      ensures bill == 0 ==>
                money == old(money) && stocks == old(stocks) && wholesaler.money == old(wholesaler.money)
      ensures bill == 0 && (costs.unitCost(resource) != 0 || old(money) < 0) ==>
                wholesaler.stocks == old(wholesaler.stocks)
      // At a price of 0 the wholesaler is asked and gives a unit away if it has one.
      ensures costs.unitCost(resource) == 0 && old(money) >= 0 && Count(old(wholesaler.stocks), resource) >= 1 ==>
                wholesaler.stocks == Add(old(wholesaler.stocks), resource, -1)
      ensures Count(old(wholesaler.stocks), resource) < 1 ==> wholesaler.stocks == old(wholesaler.stocks)
      ensures bill != 0 ==>
                && bill == costs.unitCost(resource)
                && money == old(money) - bill
                && stocks == Add(old(stocks), resource, 1)
                && wholesaler.money == old(wholesaler.money) + bill
                && wholesaler.stocks == Add(old(wholesaler.stocks), resource, -1)
      ensures Drained(old(wholesaler.stocks), wholesaler.stocks, resource)
    {
      // The quantity asked for is always one unit.
      if money < costs.unitCost(resource) {
        return 0;
      }
      bill := wholesaler.Trade(resource, 1);
      if bill == 0 {
        return 0;
      }
      money := money - bill;
      stocks := Add(stocks, resource, 1);
      spent := spent + bill;
    }

    /** The inner loop of orderResources for one resource: ask each
        wholesaler in turn, skipping them all when this factory cannot afford
        one unit, skipping those whose bill is 0, and stopping after the first
        purchase. When one is bought, `seller` is the index of the wholesaler
        that sold it. */
    method OrderFromWholesalers(resource: ItemType) returns (bought: bool, ghost seller: nat)
      requires Valid() && WholesalersValid()
      modifies this, set w | w in wholesalers
      ensures Valid() && WholesalersValid()
      ensures wholesalers == old(wholesalers) && nbBuild == old(nbBuild)
      // The factory's side.
      ensures !bought ==> money == old(money) && stocks == old(stocks)
      ensures bought ==>
                && money == old(money) - costs.unitCost(resource)
                && stocks == Add(old(stocks), resource, 1)
                && old(money) >= costs.unitCost(resource)
      // When a unit is bought: exactly when the factory can pay a nonzero
      // price and some wholesaler has one in stock.
      ensures costs.unitCost(resource) != 0 ==>
                (bought <==> && old(money) >= costs.unitCost(resource)
                             && exists k :: 0 <= k < |wholesalers| && Count(old(wholesalers[k].stocks), resource) >= 1)
      ensures costs.unitCost(resource) == 0 ==> !bought
      ensures !bought ==>
                || costs.unitCost(resource) == 0
                || old(money) < costs.unitCost(resource)
                || forall w :: w in wholesalers ==> Count(w.stocks, resource) < 1
      // The seller is the first wholesaler with a unit in stock.
      ensures bought ==>
                && seller < |wholesalers|
                && Count(old(wholesalers[seller].stocks), resource) >= 1
                && (forall k :: 0 <= k < seller ==> Count(old(wholesalers[k].stocks), resource) < 1)
                && wholesalers[seller].money == old(wholesalers[seller].money) + costs.unitCost(resource)
                && wholesalers[seller].stocks == Add(old(wholesalers[seller].stocks), resource, -1)
      // No other wholesaler changes, except that at a price of 0 every
      // wholesaler asked may give a unit away for nothing.
      ensures forall w :: w in wholesalers && (!bought || w != wholesalers[seller]) ==>
                w.money == old(w.money)
      ensures costs.unitCost(resource) != 0 || old(money) < 0 ==>
                forall w :: w in wholesalers && (!bought || w != wholesalers[seller]) ==>
                  w.stocks == old(w.stocks)
      // Every wholesaler loses units of `resource` only.
      ensures forall w :: w in wholesalers ==> Drained(old(w.stocks), w.stocks, resource)
    {
      bought, seller := false, 0;
      for j := 0 to |wholesalers|
        invariant Valid() && WholesalersValid()
        invariant wholesalers == old(wholesalers) && nbBuild == old(nbBuild)
        invariant money == old(money) && stocks == old(stocks)
        invariant forall w :: w in wholesalers ==> w.money == old(w.money)
        invariant costs.unitCost(resource) != 0 || old(money) < 0 ==>
                    forall w :: w in wholesalers ==> w.stocks == old(w.stocks)
        invariant costs.unitCost(resource) != 0 && old(money) >= costs.unitCost(resource) ==>
                    forall k :: 0 <= k < j ==> Count(old(wholesalers[k].stocks), resource) < 1
        invariant forall w :: w in wholesalers ==> Drained(old(w.stocks), w.stocks, resource)
      {
        label Ask:
        var bill := AskWholesaler(wholesalers[j], resource);
        forall w | w in wholesalers && w == wholesalers[j]
          ensures Drained(old(w.stocks), w.stocks, resource)
        {
          DrainedTwice(old(w.stocks), old@Ask(w.stocks), w.stocks, resource);
        }
        if bill != 0 {
          return true, j;
        }
      }
    }

    /** No wholesaler of this factory has a unit of `resource` in stock. */
    ghost predicate NoneInStock(resource: ItemType)
      reads this, set w | w in wholesalers
    {
      forall w :: w in wholesalers ==> Count(w.stocks, resource) < 1
    }

    /** One turn of orderResources: a resource whose count is zero is ordered
        from the wholesalers, any other is left alone. When a unit is bought,
        `seller` is the index of the wholesaler that sold it. */
    method OrderIfMissing(resource: ItemType) returns (got: bool, ghost seller: nat)
      requires Valid() && WholesalersValid()
      modifies this, set w | w in wholesalers
      ensures Valid() && WholesalersValid()
      ensures wholesalers == old(wholesalers) && nbBuild == old(nbBuild)
      ensures !got ==> money == old(money) && stocks == old(stocks)
      ensures got ==>
                && Count(old(stocks), resource) == 0
                && costs.unitCost(resource) != 0 && old(money) >= costs.unitCost(resource)
                && money == old(money) - costs.unitCost(resource)
                && stocks == Add(old(stocks), resource, 1)
      ensures !got && Count(old(stocks), resource) == 0 ==>
                costs.unitCost(resource) == 0 || old(money) < costs.unitCost(resource) || old(NoneInStock(resource))
      ensures forall r :: old(NoneInStock(r)) ==> NoneInStock(r)
      ensures forall r :: r != resource && !old(NoneInStock(r)) ==> !NoneInStock(r)
      // The wholesalers: none is asked for a resource in stock, only the
      // seller is paid, by the price of one unit, and at a nonzero price only
      // the seller's stocks change.
      ensures Count(old(stocks), resource) != 0 ==> unchanged(set w | w in wholesalers)
      ensures !got ==> forall w :: w in wholesalers ==> w.money == old(w.money)
      ensures got ==>
                && seller < |wholesalers|
                && wholesalers[seller].money == old(wholesalers[seller].money) + costs.unitCost(resource)
                && wholesalers[seller].stocks == Add(old(wholesalers[seller].stocks), resource, -1)
                && (forall w :: w in wholesalers && w != wholesalers[seller] ==> w.money == old(w.money))
      ensures costs.unitCost(resource) != 0 ==>
                forall w :: w in wholesalers && (!got || w != wholesalers[seller]) ==> w.stocks == old(w.stocks)
    {
      got, seller := false, 0;
      if Count(stocks, resource) == 0 {
        got, seller := OrderFromWholesalers(resource);
      }
    }

    /** Turn `j` of orderResources, OrderIfMissing for the j-th needed
        resource, together with the record of the order so far: `bought`,
        `boughtAt`, `funds` and `soldOut` as OrderResources keeps them, from
        money `money0` and stocks `stocks0`, and `startOut`, the needed
        resources no wholesaler had at the start. */
    method OrderTurn(j: nat, ghost money0: int, ghost stocks0: Stocks, ghost startOut: set<ItemType>,
                     ghost bought: seq<ItemType>, ghost boughtAt: seq<bool>, ghost funds: seq<int>,
                     ghost soldOut: set<ItemType>)
      returns (ghost bought': seq<ItemType>, ghost boughtAt': seq<bool>, ghost funds': seq<int>,
               ghost soldOut': set<ItemType>)
      requires Valid() && WholesalersValid() && j < |resourcesNeeded|
      requires Purchases(costs, resourcesNeeded, money0, stocks0, bought, money, stocks)
      requires TurnsKept(costs, resourcesNeeded, j, money0, stocks0, bought, boughtAt, funds, soldOut, money)
      requires forall r :: r in soldOut ==> NoneInStock(r)
      requires Distinct(resourcesNeeded) ==> soldOut <= startOut
      requires Distinct(resourcesNeeded) ==>
                 forall i :: j <= i < |resourcesNeeded| && NoneInStock(resourcesNeeded[i]) ==>
                   resourcesNeeded[i] in startOut
      modifies this, set w | w in wholesalers
      ensures Valid() && WholesalersValid()
      ensures wholesalers == old(wholesalers) && nbBuild == old(nbBuild)
      ensures Purchases(costs, resourcesNeeded, money0, stocks0, bought', money, stocks)
      ensures TurnsKept(costs, resourcesNeeded, j + 1, money0, stocks0, bought', boughtAt', funds', soldOut', money)
      ensures forall r :: r in soldOut' ==> NoneInStock(r)
      ensures Distinct(resourcesNeeded) ==> soldOut' <= startOut
      ensures Distinct(resourcesNeeded) ==>
                forall i :: j + 1 <= i < |resourcesNeeded| && NoneInStock(resourcesNeeded[i]) ==>
                  resourcesNeeded[i] in startOut
    {
      var resource := resourcesNeeded[j];
      ghost var noneLeft := NoneInStock(resource);
      ghost var seller;
      var got;
      got, seller := OrderIfMissing(resource);
      bought' := if got then bought + [resource] else bought;
      soldOut' := if noneLeft then soldOut + {resource} else soldOut;
      boughtAt', funds' := boughtAt + [got], funds + [money];
      PurchasedOneMore(costs, resourcesNeeded, money0, stocks0, bought, old(money), old(stocks),
                       resource, got, bought', money, stocks);
      KeptOneMore(costs, resourcesNeeded, j, money0, stocks0, bought, boughtAt, funds, soldOut,
                  old(money), old(stocks), got, noneLeft, bought', boughtAt', funds', soldOut', money);
    }

    /** orderResources: for every needed resource whose count is zero, try
        to buy one unit as OrderFromWholesalers does. `bought` lists the units
        bought; `boughtAt[j]` says whether the j-th needed resource was bought
        at its turn, and `funds[j]` is the money the factory had at that turn
        (`funds[|resourcesNeeded|]` is the money at the end). */
    method OrderResources() returns (ghost bought: seq<ItemType>, ghost boughtAt: seq<bool>, ghost funds: seq<int>)
      requires Valid() && WholesalersValid()
      modifies this, set w | w in wholesalers
      ensures Valid() && WholesalersValid()
      ensures wholesalers == old(wholesalers) && nbBuild == old(nbBuild)
      ensures money == old(money) - TotalCost(costs, bought)
      ensures forall k :: Count(stocks, k) == Count(old(stocks), k) + multiset(bought)[k]
      ensures forall k :: k in bought ==>
                k in resourcesNeeded && Count(old(stocks), k) == 0 && multiset(bought)[k] == 1
      ensures old(money) >= 0 ==> money >= 0
      // Turn by turn.
      ensures TurnsRecorded(costs, resourcesNeeded, |resourcesNeeded|, boughtAt, funds, old(money))
      ensures funds[|resourcesNeeded|] == money
      ensures forall j :: 0 <= j < |resourcesNeeded| && boughtAt[j] ==> resourcesNeeded[j] in bought
      // A missing resource that was not bought had a price of 0, was too
      // dear at its turn, or is in no wholesaler's stock.
      ensures forall j :: 0 <= j < |resourcesNeeded| && resourcesNeeded[j] !in bought
                          && Count(old(stocks), resourcesNeeded[j]) == 0 ==>
                || costs.unitCost(resourcesNeeded[j]) == 0
                || funds[j] < costs.unitCost(resourcesNeeded[j])
                || NoneInStock(resourcesNeeded[j])
      // With a repeat-free list, in no wholesaler's stock from the start.
      ensures Distinct(resourcesNeeded) ==>
                forall j :: 0 <= j < |resourcesNeeded| && resourcesNeeded[j] !in bought
                            && Count(old(stocks), resourcesNeeded[j]) == 0 ==>
                  || costs.unitCost(resourcesNeeded[j]) == 0
                  || funds[j] < costs.unitCost(resourcesNeeded[j])
                  || old(NoneInStock(resourcesNeeded[j]))
    {
      bought, boughtAt, funds := [], [], [money];
      ghost var soldOut: set<ItemType> := {};  // resources no wholesaler has any more
      ghost var startOut := set r | r in resourcesNeeded && NoneInStock(r);  // none in stock at the start
      for j := 0 to |resourcesNeeded|
        invariant Valid() && WholesalersValid()
        invariant wholesalers == old(wholesalers) && nbBuild == old(nbBuild)
        invariant Purchases(costs, resourcesNeeded, old(money), old(stocks), bought, money, stocks)
        invariant TurnsKept(costs, resourcesNeeded, j, old(money), old(stocks), bought, boughtAt, funds,
                            soldOut, money)
        invariant forall r :: r in soldOut ==> NoneInStock(r)
        invariant Distinct(resourcesNeeded) ==> soldOut <= startOut
        invariant Distinct(resourcesNeeded) ==>
                    forall i :: j <= i < |resourcesNeeded| && NoneInStock(resourcesNeeded[i]) ==>
                      resourcesNeeded[i] in startOut
      {
        bought, boughtAt, funds, soldOut :=
          OrderTurn(j, old(money), old(stocks), startOut, bought, boughtAt, funds, soldOut);
      }
      DistinctOnce(bought);
      forall k
        ensures Count(stocks, k) == Count(old(stocks), k) + multiset(bought)[k]
      {
        RestockCount(old(stocks), bought, k);
      }
      assert forall r :: r in startOut ==> old(NoneInStock(r));
    }

    /** trade: sell `qty` units of the built item. A sale of a non-positive
        quantity or of another item, or of more than is in stock, returns 0;
        only the last of these reads `stocks[it]`, inserting a zero entry. The
        stock test the source repeats under the lock is the same test here. */
    method Trade(it: ItemType, qty: int) returns (bill: int)
      requires Valid()
      modifies this
      ensures Valid() && wholesalers == old(wholesalers) && nbBuild == old(nbBuild)
      ensures qty <= 0 || it != itemBuilt ==>
                bill == 0 && money == old(money) && stocks == old(stocks)
      ensures qty > 0 && it == itemBuilt && Count(old(stocks), it) < qty ==>
                bill == 0 && money == old(money) && stocks == Touch(old(stocks), it)
      ensures qty > 0 && it == itemBuilt && Count(old(stocks), it) >= qty ==>
                && bill == MaterialCost() * qty
                && money == old(money) + bill
                && stocks == Add(old(stocks), it, -qty)
      ensures NonNegative(old(stocks)) ==> NonNegative(stocks)
    {
      if qty <= 0 || it != itemBuilt {
        return 0;
      }
      stocks := Touch(stocks, it);
      if stocks[it] < qty {
        return 0;
      }
      stocks := stocks[it := stocks[it] - qty];
      bill := MaterialCost() * qty;
      money := money + bill;
      revenue := revenue + bill;
    }

    /** One iteration of run: build when every needed resource is in stock,
        order the missing ones otherwise (`bought`, `boughtAt` and `funds` as
        in OrderResources). With distinct needed resources no count becomes
        negative. */
    method RunStep() returns (built: bool, ghost bought: seq<ItemType>, ghost boughtAt: seq<bool>,
                              ghost funds: seq<int>)
      requires Valid() && WholesalersValid()
      modifies this, set w | w in wholesalers
      ensures Valid() && WholesalersValid() && wholesalers == old(wholesalers)
      ensures built ==> HasResources(old(stocks), resourcesNeeded)
      // A build, as BuildItem states it; the wholesalers are not involved.
      ensures HasResources(old(stocks), resourcesNeeded) ==>
                && bought == []
                && (built <==> old(money) >= EmployeeCost())
                && (built ==>
                      && money == old(money) - EmployeeCost()
                      && nbBuild == old(nbBuild) + 1
                      && stocks == Add(Consume(old(stocks), resourcesNeeded), itemBuilt, 1))
                && (!built ==> money == old(money) && stocks == old(stocks) && nbBuild == old(nbBuild))
                && forall w :: w in wholesalers ==> w.money == old(w.money) && w.stocks == old(w.stocks)
      // An order, as OrderResources states it.
      ensures !HasResources(old(stocks), resourcesNeeded) ==>
                && !built && nbBuild == old(nbBuild)
                && money == old(money) - TotalCost(costs, bought)
                && (forall k :: Count(stocks, k) == Count(old(stocks), k) + multiset(bought)[k])
                && (forall k :: k in bought ==>
                      k in resourcesNeeded && Count(old(stocks), k) == 0 && multiset(bought)[k] == 1)
                && TurnsRecorded(costs, resourcesNeeded, |resourcesNeeded|, boughtAt, funds, old(money))
                && funds[|resourcesNeeded|] == money
                && (forall j :: 0 <= j < |resourcesNeeded| && boughtAt[j] ==> resourcesNeeded[j] in bought)
      // A missing resource not ordered was free, too dear at its turn, or in no
      // wholesaler's stock.
      ensures !HasResources(old(stocks), resourcesNeeded) ==>
                forall j :: 0 <= j < |resourcesNeeded| && resourcesNeeded[j] !in bought
                            && Count(old(stocks), resourcesNeeded[j]) == 0 ==>
                  || costs.unitCost(resourcesNeeded[j]) == 0
                  || funds[j] < costs.unitCost(resourcesNeeded[j])
                  || NoneInStock(resourcesNeeded[j])
      ensures !HasResources(old(stocks), resourcesNeeded) && Distinct(resourcesNeeded) ==>
                forall j :: 0 <= j < |resourcesNeeded| && resourcesNeeded[j] !in bought
                            && Count(old(stocks), resourcesNeeded[j]) == 0 ==>
                  || costs.unitCost(resourcesNeeded[j]) == 0
                  || funds[j] < costs.unitCost(resourcesNeeded[j])
                  || old(NoneInStock(resourcesNeeded[j]))
      ensures Distinct(resourcesNeeded) && NonNegative(old(stocks)) ==> NonNegative(stocks)
    {
      var ready := VerifyResources();
      if ready {
        bought, boughtAt, funds := [], [], [money];
        built := BuildItem();
        if built && Distinct(resourcesNeeded) && NonNegative(old(stocks)) {
          BuildKeepsCountsNonNegative(old(stocks), resourcesNeeded, itemBuilt);
        }
      } else {
        bought, boughtAt, funds := OrderResources();
        built := false;
        if NonNegative(old(stocks)) {
          forall k | k in stocks
            ensures stocks[k] >= 0
          {
            assert Count(stocks, k) == stocks[k];
          }
        }
      }
    }
  }
}
