/** The overview screen: the pending-order counter, the total of units in
    stock, the low-stock list with its labels, and the five most recent
    orders with their customer names. Everything here is derived from the
    three collections; nothing is changed. */
module Dashboard {
  import opened Seqs
  import opened Text
  import opened Domain
  import opened App
  import opened Orders

  // ---------------------------------------------------------------------
  // Pending orders
  // ---------------------------------------------------------------------

  predicate IsPending(o: Order) {
    o.status == Pending
  }

  /** `orders.filter(o => o.status === OrderStatus.PENDING)`. */
  function PendingOrders(os: seq<Order>): (r: seq<Order>)
    ensures forall i :: 0 <= i < |r| ==> r[i].status == Pending && r[i] in os
    ensures forall i :: 0 <= i < |os| && os[i].status == Pending ==> os[i] in r
  {
    Filter(os, IsPending)
  }

  /** How many orders of `os` have status `s` (a reference count). */
  function CountStatus(os: seq<Order>, s: OrderStatus): nat {
    if os == [] then 0
    else (if os[0].status == s then 1 else 0) + CountStatus(os[1..], s)
  }

  /** The counter shows the number of orders whose status is exactly
      "Pendente". */
  lemma {:induction false} PendingCountIsExact(os: seq<Order>)
    ensures |PendingOrders(os)| == CountStatus(os, Pending)
  {
    if os != [] {
      PendingCountIsExact(os[1..]);
    }
  }

  /** The "Pendentes" tab of the order screen also lists the orders with a
      label, so the counter is its size less the number of those. */
  lemma {:induction false} PendingTabCountsLabels(os: seq<Order>)
    ensures |TabOrders(os, PendingTab)| == CountStatus(os, Pending) + CountStatus(os, LabelGenerated)
  {
    if os != [] {
      PendingTabCountsLabels(os[1..]);
    }
  }

  // ---------------------------------------------------------------------
  // Units in stock
  // ---------------------------------------------------------------------

  /** `reduce((acc, p) => acc + p.remainingQuantity, 0)`. */
  function SumRemaining(ps: seq<Product>): int {
    if ps == [] then 0 else ps[0].remainingQuantity + SumRemaining(ps[1..])
  }

  /** The units left counted lot by lot, an archived lot counting 0 (a
      reference definition). */
  function ActiveUnits(ps: seq<Product>): int {
    if ps == [] then 0
    else (if IsActive(ps[0]) then ps[0].remainingQuantity else 0) + ActiveUnits(ps[1..])
  }

  /** `totalStock`: the units left over the active lots, which is the
      lot-by-lot count with archived lots counting nothing. */
  function TotalStock(ps: seq<Product>): (r: int)
    ensures r == ActiveUnits(ps)
  {
    ActiveSumIsActiveUnits(ps);
    SumRemaining(ActiveProducts(ps))
  }

  /** Summing over the active lots equals counting lot by lot with archived
      lots counting 0. */
  lemma {:induction false} ActiveSumIsActiveUnits(ps: seq<Product>)
    ensures SumRemaining(ActiveProducts(ps)) == ActiveUnits(ps)
  {
    if ps != [] {
      ActiveSumIsActiveUnits(ps[1..]);
      if IsActive(ps[0]) {
        assert ActiveProducts(ps) == [ps[0]] + ActiveProducts(ps[1..]);
        assert ([ps[0]] + ActiveProducts(ps[1..]))[1..] == ActiveProducts(ps[1..]);
      }
    }
  }

  /** What one lot contributes to the total. */
  function Units(p: Product): int {
    if IsActive(p) then p.remainingQuantity else 0
  }

  /** Changing one lot changes the total by the change in what that lot
      contributes. */
  lemma {:induction false} ActiveUnitsPointUpdate(a: seq<Product>, b: seq<Product>, i: nat)
    requires |a| == |b| && i < |a|
    requires forall j :: 0 <= j < |a| && j != i ==> a[j] == b[j]
    ensures ActiveUnits(b) == ActiveUnits(a) - Units(a[i]) + Units(b[i])
  {
    if i == 0 {
      assert a[1..] == b[1..];
    } else {
      ActiveUnitsPointUpdate(a[1..], b[1..], i - 1);
    }
  }

  /** Archiving a lot takes its remaining units out of the total. */
  lemma ArchiveLowersTotalStock(ps: seq<Product>, i: nat)
    requires i < |ps| && UniqueProductIds(ps)
    ensures TotalStock(Archive(ps, ps[i].id))
              == TotalStock(ps) - (if IsActive(ps[i]) then ps[i].remainingQuantity else 0)
  {
    var r := Archive(ps, ps[i].id);
    forall j | 0 <= j < |ps| && j != i
      ensures ps[j] == r[j]
    {
      assert ps[j].id != ps[i].id;
    }
    ActiveUnitsPointUpdate(ps, r, i);
  }

  /** The stock update of an accepted order takes its quantity out of the
      total when its lot is active, and leaves the total as it was when the
      lot is archived. */
  lemma PlacedOrderLowersTotalStock(ps: seq<Product>, i: nat, quantity: int)
    requires i < |ps| && UniqueProductIds(ps)
    ensures TotalStock(Decrement(ps, ps[i].id, quantity))
              == TotalStock(ps) - (if IsActive(ps[i]) then quantity else 0)
  {
    var r := Decrement(ps, ps[i].id, quantity);
    forall j | 0 <= j < |ps| && j != i
      ensures ps[j] == r[j]
    {
      assert ps[j].id != ps[i].id;
    }
    ActiveUnitsPointUpdate(ps, r, i);
  }

  // ---------------------------------------------------------------------
  // Low stock
  // ---------------------------------------------------------------------

  predicate IsLow(p: Product) {
    p.remainingQuantity < 10
  }

  predicate IsActiveAndLow(p: Product) {
    IsActive(p) && IsLow(p)
  }

  /** `activeProducts.filter(p => p.remainingQuantity < 10)`. */
  function LowStock(ps: seq<Product>): (r: seq<Product>)
    ensures forall i :: 0 <= i < |r| ==> r[i] in ps && IsActive(r[i]) && IsLow(r[i])
    ensures forall i :: 0 <= i < |ps| && IsActive(ps[i]) && IsLow(ps[i]) ==> ps[i] in r
  {
    Filter(ActiveProducts(ps), IsLow)
  }

  /** The low-stock list is exactly the active lots with fewer than 10 units
      left, in their original order. */
  lemma LowStockExact(ps: seq<Product>)
    ensures LowStock(ps) == Filter(ps, IsActiveAndLow)
    ensures forall i :: 0 <= i < |ps| ==> (ps[i] in LowStock(ps) <==> IsActive(ps[i]) && IsLow(ps[i]))
    ensures IsSubsequence(LowStock(ps), ps)
  {
    FilterFilter(ps, IsActive, IsLow, IsActiveAndLow);
    FilterIsSubsequence(ps, IsActiveAndLow);
  }

  const Complete := "COMPLETA"

  /** The badge of a low-stock lot. */
  function StockLabel(p: Product): (r: string)
    ensures r == Complete <==> p.remainingQuantity == 0
  {
    if p.remainingQuantity == 0 then Complete
    else
      var r := "Restam " + IntToString(p.remainingQuantity);
      assert r[0] == 'R';
      r
  }

  /** A lot is labelled "COMPLETA" exactly when no unit is left; otherwise
      the badge ends with the number of units left. */
  lemma StockLabelIff(p: Product)
    ensures StockLabel(p) == Complete <==> p.remainingQuantity == 0
    ensures p.remainingQuantity != 0 ==>
              StockLabel(p)[|"Restam "|..] == IntToString(p.remainingQuantity)
  {
    if p.remainingQuantity != 0 {
      assert StockLabel(p)[0] == 'R';
    }
  }

  // ---------------------------------------------------------------------
  // Recent orders
  // ---------------------------------------------------------------------

  /** `orders.slice(0, 5)`: stored order, no re-sorting. */
  function RecentOrders(os: seq<Order>): (r: seq<Order>)
    ensures |r| == if |os| < 5 then |os| else 5
    ensures forall i :: 0 <= i < |r| ==> r[i] == os[i]
  {
    if |os| < 5 then os else os[..5]
  }

  /** Since `addOrder` puts the new order first, an accepted order heads the
      recent list and pushes the others one place down. */
  lemma AcceptedOrderIsMostRecent(os: seq<Order>, o: Order)
    ensures RecentOrders([o] + os)[0] == o
    ensures RecentOrders([o] + os)[1..] == RecentOrders(os)[..if |os| < 4 then |os| else 4]
  {
    var r := RecentOrders([o] + os);
    assert r[0] == ([o] + os)[0];
  }

  // ---------------------------------------------------------------------
  // Customer names
  // ---------------------------------------------------------------------

  const UnknownCustomer := "Cliente Desconhecido"

  /** `customers.find(c => c.id === id)`. */
  function FindCustomer(cs: seq<Customer>, id: string): (r: Option<Customer>)
    ensures r.None? <==> forall i :: 0 <= i < |cs| ==> cs[i].id != id
    ensures r.Some? ==> exists i :: 0 <= i < |cs| && cs[i] == r.value && cs[i].id == id
                                     && forall j :: 0 <= j < i ==> cs[j].id != id
  {
    Find(cs, (c: Customer) => c.id == id)
  }

  /** `customer?.name || 'Cliente Desconhecido'`. */
  function CustomerLabel(cs: seq<Customer>, o: Order): (r: string)
    ensures r != ""
    ensures r == UnknownCustomer || exists i :: 0 <= i < |cs| && cs[i].id == o.customerId && cs[i].name == r
  {
    match FindCustomer(cs, o.customerId)
    case Some(c) => if c.name != "" then c.name else UnknownCustomer
    case None => UnknownCustomer
  }

  /** An order whose customer id matches nobody shows the fallback; one whose
      first matching customer has a name shows that name, and with unique
      ids that is the name of the one customer with the id. */
  lemma CustomerLabelCases(cs: seq<Customer>, o: Order)
    ensures (forall i :: 0 <= i < |cs| ==> cs[i].id != o.customerId) ==> CustomerLabel(cs, o) == UnknownCustomer
    ensures forall i :: 0 <= i < |cs| && cs[i].id == o.customerId && cs[i].name != "" && UniqueCustomerIds(cs)
              ==> CustomerLabel(cs, o) == cs[i].name
  {
    forall i | 0 <= i < |cs| && cs[i].id == o.customerId && cs[i].name != "" && UniqueCustomerIds(cs)
      ensures CustomerLabel(cs, o) == cs[i].name
    {
      FindAt(cs, (c: Customer) => c.id == o.customerId, i);
    }
  }
}
