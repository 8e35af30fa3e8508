/**
 * What the trading actors of the third lab share: the item types, the cost
 * table and the stock map every seller keeps.
 *
 * The item types, the cost table and the seller base class come from costs.h
 * and seller.h, which are not part of this model. The cost table is therefore
 * a value handed to every actor: whatever is proved holds for every table.
 */
module Items {

  datatype ItemType = Sand | Copper | Petrol | Chip | Plastic | Robot | Nothing

  /** `unitCost(it)` stands for getCostPerUnit(it) and `employeeSalary(it)`
      for getEmployeeSalary(getEmployeeThatProduces(it)). */
  datatype Costs = Costs(unitCost: ItemType -> int, employeeSalary: ItemType -> int)

  /** A seller's `stocks`: a std::map from item to count. */
  type Stocks = map<ItemType, int>

  /** No item has a negative count. */
  predicate NonNegative(m: Stocks) {
    forall k :: k in m ==> m[k] >= 0
  }

  /** The count std::map::operator[] reads: zero for a missing key. */
  function Count(m: Stocks, it: ItemType): int {
    if it in m then m[it] else 0
  }

  /** The map after a read through operator[], which inserts a zero entry for
      a missing key and changes no count. */
  function Touch(m: Stocks, it: ItemType): (r: Stocks)
    ensures r.Keys == m.Keys + {it}
    ensures forall k :: Count(r, k) == Count(m, k)
  {
    if it in m then m else m[it := 0]
  }

  /** `stocks[it] += d` */
  function Add(m: Stocks, it: ItemType, d: int): (r: Stocks)
    ensures r.Keys == m.Keys + {it}
    ensures Count(r, it) == Count(m, it) + d
    ensures forall k :: k != it ==> Count(r, k) == Count(m, k)
    ensures NonNegative(m) && Count(m, it) + d >= 0 ==> NonNegative(r)
  {
    m[it := Count(m, it) + d]
  }


  /** The sum of the unit costs of `items`, one unit each. */
  function TotalCost(costs: Costs, items: seq<ItemType>): int
    decreases |items|
  {
    if items == [] then 0
    else TotalCost(costs, items[..|items| - 1]) + costs.unitCost(items[|items| - 1])
  }
}
