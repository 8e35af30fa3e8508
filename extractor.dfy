/**
 * A mine of the third lab (class Extractor): it pays a miner for every unit
 * it extracts and sells its one resource. Each method is one atomic step
 * here: one turn of run joins its two sections under `resourcesProtector`
 * and the unlocked `nbExtracted++` between them.
 */
module Extractors {
  import opened Items

  /** The resources a mine may extract. */
  predicate IsRawResource(it: ItemType) {
    it == Copper || it == Sand || it == Petrol
  }

  class Extractor {
    const uniqueId: int
    const resourceExtracted: ItemType
    const costs: Costs
    var money: int
    var stocks: Stocks
    var nbExtracted: nat

    /** Ledger: the fund the mine started with and what its sales brought in. */
    ghost const initialFund: int
    ghost var revenue: int

    /** The salary of the miner that extracts this mine's resource. */
    function MinerCost(): int {
      costs.employeeSalary(resourceExtracted)
    }

    /** getMaterialCost */
    function MaterialCost(): int {
      costs.unitCost(resourceExtracted)
    }

    /** The mine extracts a raw resource, no count is negative, and every unit
        of money is accounted for: the fund, plus sales, minus one salary per
        paid miner. */
    ghost predicate Valid()
      reads this
    {
      && IsRawResource(resourceExtracted)
      && NonNegative(stocks)
      && money == initialFund + revenue - nbExtracted * MinerCost()
    }

    /** The stocks the seller base class starts with are not part of this
        model; they are a parameter here. */
    constructor (uniqueId: int, fund: int, resourceExtracted: ItemType, costs: Costs, initialStocks: Stocks)
      requires IsRawResource(resourceExtracted)
      requires NonNegative(initialStocks)
      ensures Valid()
      ensures this.uniqueId == uniqueId && this.resourceExtracted == resourceExtracted && this.costs == costs
      ensures money == fund && stocks == initialStocks && nbExtracted == 0
    {
      this.uniqueId := uniqueId;
      this.resourceExtracted := resourceExtracted;
      this.costs := costs;
      money := fund;
      stocks := initialStocks;
      nbExtracted := 0;
      initialFund := fund;
      revenue := 0;
    }

    method GetItemsForSale() returns (m: Stocks)
      ensures m == stocks
    {
      m := stocks;
    }

    method GetResourceMined() returns (it: ItemType)
      requires Valid()
      ensures it == resourceExtracted && IsRawResource(it)
    {
      it := resourceExtracted;
    }

    /** getAmountPaidToMiners: one salary per paid miner, which is all the
        money that went out of the mine. */
    method GetAmountPaidToMiners() returns (paid: int)
      requires Valid()
      ensures paid == nbExtracted * MinerCost()
      ensures paid == initialFund + revenue - money
    {
      paid := nbExtracted * costs.employeeSalary(resourceExtracted);
    }

    /** trade: sell `qty` units of the mined resource. A sale of a non-positive
        quantity or of another item, or of more than is in stock, returns 0;
        only the last of these reads `stocks[it]`, inserting a zero entry. */
    method Trade(it: ItemType, qty: int) returns (bill: int)
      requires Valid()
      modifies this
      ensures Valid() && nbExtracted == old(nbExtracted)
      ensures qty <= 0 || it != resourceExtracted ==>
                bill == 0 && money == old(money) && stocks == old(stocks)
      ensures qty > 0 && it == resourceExtracted && Count(old(stocks), it) < qty ==>
                bill == 0 && money == old(money) && stocks == Touch(old(stocks), it)
      ensures qty > 0 && it == resourceExtracted && Count(old(stocks), it) >= qty ==>
                && bill == MaterialCost() * qty
                && money == old(money) + bill
                && stocks == Add(old(stocks), it, -qty)
    {
      if qty <= 0 || it != resourceExtracted {
        return 0;
      }
      stocks := Touch(stocks, it);
      if stocks[it] < qty {
        return 0;
      }
      stocks := stocks[it := stocks[it] - qty];
      bill := MaterialCost() * qty;
      money := money + bill;
      revenue := revenue + bill;
    }

    /** One iteration of run: without the money for a miner nothing changes
        (the mine waits and retries); otherwise it pays the miner, who extracts
        one unit. */
    method RunStep() returns (paid: bool)
      requires Valid()
      modifies this
      ensures Valid()
      ensures paid <==> old(money) >= MinerCost()
      ensures !paid ==> money == old(money) && stocks == old(stocks) && nbExtracted == old(nbExtracted)
      ensures paid ==>
                && money == old(money) - MinerCost()
                && nbExtracted == old(nbExtracted) + 1
                && stocks == Add(old(stocks), resourceExtracted, 1)
    {
      var minerCost := costs.employeeSalary(resourceExtracted);
      if money < minerCost {
        return false;
      }
      money := money - minerCost;
      nbExtracted := nbExtracted + 1;
      stocks := Add(stocks, resourceExtracted, 1);
      paid := true;
    }
  }
}
