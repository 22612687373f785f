/** The record store held by the top-level component: three collections
    (customers, product lots, orders) and the six actions that replace them.
    Each action computes a new collection from the old one (a spread or an
    `Array.prototype.map`); the functions below are those new values, and
    class `Store` holds the collections and applies them. Fresh ids and
    timestamps, produced in the application by `Math.random` and
    `new Date()`, are parameters. */
module App {
  import opened Seqs
  import opened Domain

  // ---------------------------------------------------------------------
  // Identity
  // ---------------------------------------------------------------------

  predicate UniqueProductIds(ps: seq<Product>) {
    forall i, j :: 0 <= i < j < |ps| ==> ps[i].id != ps[j].id
  }

  predicate UniqueCustomerIds(cs: seq<Customer>) {
    forall i, j :: 0 <= i < j < |cs| ==> cs[i].id != cs[j].id
  }

  predicate UniqueOrderIds(os: seq<Order>) {
    forall i, j :: 0 <= i < j < |os| ==> os[i].id != os[j].id
  }

  predicate AllStockOk(ps: seq<Product>) {
    forall i :: 0 <= i < |ps| ==> StockOk(ps[i])
  }

  /** `products.find(p => p.id === id)`. */
  function FindProduct(ps: seq<Product>, id: string): (r: Option<Product>)
    ensures r.None? <==> forall i :: 0 <= i < |ps| ==> ps[i].id != id
    ensures r.Some? ==> exists i :: 0 <= i < |ps| && ps[i] == r.value && r.value.id == id
                                     && forall j :: 0 <= j < i ==> ps[j].id != id
  {
    Find(ps, (p: Product) => p.id == id)
  }

  /** With unique ids the product found is the one at the position holding
      the id. */
  lemma FindProductUnique(ps: seq<Product>, i: nat)
    requires UniqueProductIds(ps) && i < |ps|
    ensures FindProduct(ps, ps[i].id) == Some(ps[i])
  {
    var r := FindProduct(ps, ps[i].id);
    var k :| 0 <= k < |ps| && ps[k] == r.value && r.value.id == ps[i].id
             && forall j :: 0 <= j < k ==> ps[j].id != ps[i].id;
    assert k == i;
  }

  // ---------------------------------------------------------------------
  // Products
  // ---------------------------------------------------------------------

  /** The lot `addProduct` creates: the caller's fields, a fresh id, all of
      the lot still on hand, and active. */
  function NewProduct(input: ProductInput, id: string): (p: Product)
    ensures p.id == id && p.name == input.name && p.description == input.description
    ensures p.price == input.price && p.totalQuantity == input.totalQuantity
    ensures p.remainingQuantity == p.totalQuantity && p.status == Active
  {
    Product(id, input.name, input.description, input.totalQuantity,
            input.totalQuantity, input.price, Active)
  }

  /** `products.map(p => p.id === id ? { ...p, status: 'archived' } : p)`:
      the lots holding the id become archived and nothing else changes. */
  function Archive(ps: seq<Product>, id: string): (r: seq<Product>)
    ensures |r| == |ps|
    ensures forall i :: 0 <= i < |ps| ==> r[i].(status := ps[i].status) == ps[i]
    ensures forall i :: 0 <= i < |ps| ==> r[i].status == if ps[i].id == id then Archived else ps[i].status
  {
    seq(|ps|, i requires 0 <= i < |ps| => if ps[i].id == id then ps[i].(status := Archived) else ps[i])
  }

  /** Archiving an id no lot holds changes nothing. */
  lemma ArchiveUnknownIsNoop(ps: seq<Product>, id: string)
    requires forall i :: 0 <= i < |ps| ==> ps[i].id != id
    ensures Archive(ps, id) == ps
  {
  }

  /** Archiving twice is archiving once. */
  lemma ArchiveIdempotent(ps: seq<Product>, id: string)
    ensures Archive(Archive(ps, id), id) == Archive(ps, id)
  {
  }

  /** Archiving keeps every lot's stock figures, so the stock bounds hold
      afterwards exactly when they held before. */
  lemma ArchiveKeepsStock(ps: seq<Product>, id: string)
    ensures AllStockOk(Archive(ps, id)) <==> AllStockOk(ps)
    ensures UniqueProductIds(Archive(ps, id)) <==> UniqueProductIds(ps)
  {
    var r := Archive(ps, id);
    assert forall i :: 0 <= i < |ps| ==> r[i].id == ps[i].id;
    assert forall i :: 0 <= i < |ps| ==>
      r[i].remainingQuantity == ps[i].remainingQuantity && r[i].totalQuantity == ps[i].totalQuantity;
  }

  /** An archived lot can still be looked up by id, so orders placed on it
      still resolve its name; only its status differs. */
  lemma {:induction false} ArchiveKeepsLookup(ps: seq<Product>, id: string, key: string)
    ensures FindProduct(Archive(ps, id), key).Some? == FindProduct(ps, key).Some?
    ensures FindProduct(ps, key).Some? ==>
              FindProduct(Archive(ps, id), key).value.(status := FindProduct(ps, key).value.status)
                == FindProduct(ps, key).value
  {
    var r := Archive(ps, id);
    var f := (p: Product) => p.id == key;
    assert forall i :: 0 <= i < |ps| ==> r[i].id == ps[i].id;
    match FindIndex(ps, f)
    case None =>
      assert FindIndex(r, f).None?;
    case Some(k) =>
      FindAt(r, f, k);
  }

  /** The lots after an order of `quantity` units of lot `id`: the lots
      holding the id lose `quantity` units and nothing else changes. */
  function Decrement(ps: seq<Product>, id: string, quantity: int): (r: seq<Product>)
    ensures |r| == |ps|
    ensures forall i :: 0 <= i < |ps| ==> r[i].(remainingQuantity := ps[i].remainingQuantity) == ps[i]
    ensures forall i :: 0 <= i < |ps| ==>
              r[i].remainingQuantity == ps[i].remainingQuantity - (if ps[i].id == id then quantity else 0)
  {
    seq(|ps|, i requires 0 <= i < |ps| =>
      if ps[i].id == id then ps[i].(remainingQuantity := ps[i].remainingQuantity - quantity) else ps[i])
  }

  // ---------------------------------------------------------------------
  // Orders
  // ---------------------------------------------------------------------

  /** Why `addOrder` placed nothing: no lot has the id (a silent return), or
      the lot has fewer units than asked for (the alert names how many are
      left). */
  datatype Rejection = UnknownProduct | InsufficientStock(available: int)

  /** The two checks `addOrder` makes before it changes anything. */
  function StockCheck(ps: seq<Product>, productId: string, quantity: int): (r: Option<Rejection>)
    ensures r == Some(UnknownProduct) <==> forall i :: 0 <= i < |ps| ==> ps[i].id != productId
    ensures r.None? ==>
              exists i :: 0 <= i < |ps| && ps[i].id == productId && quantity <= ps[i].remainingQuantity
    ensures r.Some? && r.value.InsufficientStock? ==>
              exists i :: 0 <= i < |ps| && ps[i].id == productId
                          && ps[i].remainingQuantity == r.value.available < quantity
  {
    match FindProduct(ps, productId)
    case None => Some(UnknownProduct)
    case Some(p) =>
      if p.remainingQuantity < quantity then Some(InsufficientStock(p.remainingQuantity)) else None
  }

  /** Under unique ids the check passes exactly when the lot exists and has
      at least `quantity` units. */
  lemma StockCheckExact(ps: seq<Product>, i: nat, quantity: int)
    requires UniqueProductIds(ps) && i < |ps|
    ensures StockCheck(ps, ps[i].id, quantity).None? <==> quantity <= ps[i].remainingQuantity
    ensures quantity > ps[i].remainingQuantity ==>
              StockCheck(ps, ps[i].id, quantity) == Some(InsufficientStock(ps[i].remainingQuantity))
  {
    FindProductUnique(ps, i);
  }

  /** A placed order never drives a lot below zero, and for a non-negative
      quantity (the order form demands at least 1) never above its total.
      Unique ids matter: the check looks at the first lot with the id, the
      decrement touches every lot with it. */
  lemma PlacementKeepsStock(ps: seq<Product>, productId: string, quantity: int)
    requires UniqueProductIds(ps)
    requires StockCheck(ps, productId, quantity).None?
    ensures (forall i :: 0 <= i < |ps| ==> 0 <= ps[i].remainingQuantity) ==>
              forall i :: 0 <= i < |ps| ==> 0 <= Decrement(ps, productId, quantity)[i].remainingQuantity
    ensures AllStockOk(ps) && quantity >= 0 ==> AllStockOk(Decrement(ps, productId, quantity))
  {
    var k :| 0 <= k < |ps| && ps[k].id == productId && quantity <= ps[k].remainingQuantity;
    assert forall i :: 0 <= i < |ps| && i != k ==> ps[i].id != productId;
  }

  /** The bound `remainingQuantity <= totalQuantity` rests on the form's
      `min="1"`: the store itself accepts a negative quantity and then adds
      stock. */
  lemma NegativeQuantityRaisesStock()
    ensures var ps := [Product("1", "Lote", None, 10, 10, None, Active)];
            StockCheck(ps, "1", -1).None? && !AllStockOk(Decrement(ps, "1", -1))
  {
    var ps := [Product("1", "Lote", None, 10, 10, None, Active)];
    FindProductUnique(ps, 0);
    assert Decrement(ps, "1", -1)[0].remainingQuantity == 11;
  }

  /** The order `addOrder` creates: the caller's fields, a fresh id, pending
      and unpaid, dated now. */
  function NewOrder(input: OrderInput, id: string, date: Timestamp): (o: Order)
    ensures o.id == id && o.customerId == input.customerId && o.productId == input.productId
    ensures o.quantity == input.quantity && o.notes == input.notes && o.date == date
    ensures o.status == Pending && !o.isPaid
  {
    Order(id, input.customerId, input.productId, input.quantity, Pending, input.notes, date, false)
  }

  /** `orders.map(o => o.id === id ? { ...o, status } : o)`: no transition
      guard, only the status of matching orders changes. */
  function SetStatus(os: seq<Order>, id: string, status: OrderStatus): (r: seq<Order>)
    ensures |r| == |os|
    ensures forall i :: 0 <= i < |os| ==> r[i].(status := os[i].status) == os[i]
    ensures forall i :: 0 <= i < |os| ==> r[i].status == if os[i].id == id then status else os[i].status
  {
    seq(|os|, i requires 0 <= i < |os| => if os[i].id == id then os[i].(status := status) else os[i])
  }

  /** Setting the same status twice is setting it once. */
  lemma SetStatusIdempotent(os: seq<Order>, id: string, status: OrderStatus)
    ensures SetStatus(SetStatus(os, id, status), id, status) == SetStatus(os, id, status)
  {
  }

  /** A later status replaces an earlier one outright, whatever either is. */
  lemma SetStatusOverrides(os: seq<Order>, id: string, s1: OrderStatus, s2: OrderStatus)
    ensures SetStatus(SetStatus(os, id, s1), id, s2) == SetStatus(os, id, s2)
  {
  }

  /** `orders.map(o => o.id === id ? { ...o, isPaid: !o.isPaid } : o)`. */
  function TogglePaid(os: seq<Order>, id: string): (r: seq<Order>)
    ensures |r| == |os|
    ensures forall i :: 0 <= i < |os| ==> r[i].(isPaid := os[i].isPaid) == os[i]
    ensures forall i :: 0 <= i < |os| ==> r[i].isPaid == if os[i].id == id then !os[i].isPaid else os[i].isPaid
  {
    seq(|os|, i requires 0 <= i < |os| => if os[i].id == id then os[i].(isPaid := !os[i].isPaid) else os[i])
  }

  /** Toggling twice restores the orders; toggling is not idempotent. */
  lemma ToggleTwiceRestores(os: seq<Order>, id: string)
    ensures TogglePaid(TogglePaid(os, id), id) == os
    ensures (exists i :: 0 <= i < |os| && os[i].id == id) ==> TogglePaid(os, id) != os
  {
    if i :| 0 <= i < |os| && os[i].id == id {
      assert TogglePaid(os, id)[i] != os[i];
    }
  }

  // ---------------------------------------------------------------------
  // Seed data (the state of a first run)
  // ---------------------------------------------------------------------

  function SeedCustomers(now: Timestamp): seq<Customer> {
    [ Customer("1", "Maria Silva", "11999998888", "Rua das Flores, 123, SP", now),
      Customer("2", "João Santos", "21988887777", "Av Atlantica, 400, RJ", now) ]
  }

  function SeedProducts(): seq<Product> {
    [ Product("1", "Kit Camisetas Básicas (Caixa 01)", None, 100, 0, Some(2500), Active),
      Product("2", "Meias Esportivas (Caixa 02)", None, 100, 85, Some(1250), Active) ]
  }

  function SeedOrders(now: Timestamp): seq<Order> {
    [ Order("101", "1", "1", 10, Pending, None, now, true),
      Order("102", "2", "2", 5, Pending, None, now, false) ]
  }

  // ---------------------------------------------------------------------
  // The store
  // ---------------------------------------------------------------------

  class Store {
    var customers: seq<Customer>
    var products: seq<Product>
    var orders: seq<Order>

    /** Ids are unique in each collection (fresh ids are never reused). */
    ghost predicate Valid()
      reads this
    {
      UniqueCustomerIds(customers) && UniqueProductIds(products) && UniqueOrderIds(orders)
    }

    /** The seed data a first run starts from. */
    constructor Seed(now: Timestamp)
      ensures Valid()
      ensures customers == SeedCustomers(now)
      ensures products == SeedProducts()
      ensures orders == SeedOrders(now)
    {
      customers := SeedCustomers(now);
      products := SeedProducts();
      orders := SeedOrders(now);
    }

    /** `addProduct`: appends one new active lot with all of it on hand. */
    method AddProduct(input: ProductInput, id: string)
      requires Valid()
      requires forall i :: 0 <= i < |products| ==> products[i].id != id
      modifies this
      ensures Valid()
      ensures products == old(products) + [NewProduct(input, id)]
      ensures customers == old(customers) && orders == old(orders)
      ensures AllStockOk(old(products)) && input.totalQuantity >= 0 ==> AllStockOk(products)
    {
      var p := NewProduct(input, id);
      products := products + [p];
    }

    /** `archiveProduct`: archives the lots holding the id; an unknown id
        changes nothing. */
    method ArchiveProduct(id: string)
      requires Valid()
      modifies this
      ensures Valid()
      ensures products == Archive(old(products), id)
      ensures customers == old(customers) && orders == old(orders)
      ensures AllStockOk(products) <==> AllStockOk(old(products))
    {
      ArchiveKeepsStock(products, id);
      products := Archive(products, id);
    }

    /** `addCustomer`: appends one new customer and returns it. */
    method AddCustomer(input: CustomerInput, id: string, now: Timestamp) returns (c: Customer)
      requires Valid()
      requires forall i :: 0 <= i < |customers| ==> customers[i].id != id
      modifies this
      ensures Valid()
      ensures c == Customer(id, input.name, input.whatsapp, input.address, now)
      ensures customers == old(customers) + [c]
      ensures products == old(products) && orders == old(orders)
    {
      c := Customer(id, input.name, input.whatsapp, input.address, now);
      customers := customers + [c];
    }

    /** `addOrder`: looks the lot up, rejects an unknown lot or too large a
        quantity without changing anything, and otherwise takes the units
        from stock and puts the new order first. Neither the lot's status
        nor the customer is checked. */
    method AddOrder(input: OrderInput, id: string, date: Timestamp) returns (rejection: Option<Rejection>)
      requires Valid()
      requires forall i :: 0 <= i < |orders| ==> orders[i].id != id
      modifies this
      ensures Valid()
      ensures rejection == StockCheck(old(products), input.productId, input.quantity)
      ensures rejection.Some? ==> products == old(products) && orders == old(orders)
      ensures rejection.None? ==> orders == [NewOrder(input, id, date)] + old(orders)
      ensures rejection.None? ==> products == Decrement(old(products), input.productId, input.quantity)
      ensures customers == old(customers)
      ensures (forall i :: 0 <= i < |old(products)| ==> 0 <= old(products)[i].remainingQuantity) ==>
                forall i :: 0 <= i < |products| ==> 0 <= products[i].remainingQuantity
      ensures AllStockOk(old(products)) && input.quantity >= 0 ==> AllStockOk(products)
    {
      var product := FindProduct(products, input.productId);
      if product.None? {
        return Some(UnknownProduct);
      }
      if product.value.remainingQuantity < input.quantity {
        return Some(InsufficientStock(product.value.remainingQuantity));
      }
      var newOrder := NewOrder(input, id, date);
      PlacementKeepsStock(products, input.productId, input.quantity);
      var updated := Decrement(products, input.productId, input.quantity);
      assert forall i :: 0 <= i < |products| ==> updated[i].id == products[i].id;
      orders := [newOrder] + orders;
      products := updated;
      rejection := None;
    }

    /** `updateOrderStatus`: any status may replace any other. */
    method UpdateOrderStatus(id: string, status: OrderStatus)
      requires Valid()
      modifies this
      ensures Valid()
      ensures orders == SetStatus(old(orders), id, status)
      ensures customers == old(customers) && products == old(products)
    {
      var updated := SetStatus(orders, id, status);
      assert forall i :: 0 <= i < |orders| ==> updated[i].id == orders[i].id;
      orders := updated;
    }

    /** `toggleOrderPayment`: flips the paid flag of the matching orders. */
    method ToggleOrderPayment(id: string)
      requires Valid()
      modifies this
      ensures Valid()
      ensures orders == TogglePaid(old(orders), id)
      ensures customers == old(customers) && products == old(products)
    {
      var updated := TogglePaid(orders, id);
      assert forall i :: 0 <= i < |orders| ==> updated[i].id == orders[i].id;
      orders := updated;
    }
  }

  /** On the seed data, five pairs of socks from the lot with 85 left leave
      80 and put a pending unpaid order in front. */
  method SeedOrderAccepted(now: Timestamp)
  {
    var store := new Store.Seed(now);
    FindProductUnique(store.products, 1);
    var r := store.AddOrder(OrderInput("2", "2", 5, Some("")), "x1", now);
    assert r.None?;
    assert store.products[1].remainingQuantity == 80;
    assert store.orders[0] == Order("x1", "2", "2", 5, Pending, Some(""), now, false);
    assert |store.orders| == 3;
  }

  /** On the seed data, 200 pairs of socks are refused, the 85 left are
      reported, and nothing changes. */
  method SeedOrderRefused(now: Timestamp)
  {
    var store := new Store.Seed(now);
    FindProductUnique(store.products, 1);
    var r := store.AddOrder(OrderInput("2", "2", 200, Some("")), "x2", now);
    assert r == Some(InsufficientStock(85));
    assert store.products == SeedProducts() && store.orders == SeedOrders(now);
  }
}
