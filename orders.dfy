/** The order screen: the smart-fill reconciliation of an extraction result
    against the customers and lots, the submit guard and reset of the new-order
    form, and the tab filter with its newest-first sort. */
module Orders {
  import opened Seqs
  import opened Text
  import opened Domain
  import opened App

  // ---------------------------------------------------------------------
  // Matching
  // ---------------------------------------------------------------------

  /** `c.name.toLowerCase().includes(name.toLowerCase())`. */
  predicate NameMatches(c: Customer, name: string) {
    Includes(Lower(c.name), Lower(name))
  }

  /** The first customer, in list order, whose name contains `name` without
      regard to case. */
  function FindCustomerByName(cs: seq<Customer>, name: string): (r: Option<Customer>)
    ensures r.None? <==> forall i :: 0 <= i < |cs| ==> !NameMatches(cs[i], name)
    ensures r.Some? ==> exists i :: 0 <= i < |cs| && cs[i] == r.value && NameMatches(r.value, name)
                                     && forall j :: 0 <= j < i ==> !NameMatches(cs[j], name)
  {
    Find(cs, (c: Customer) => NameMatches(c, name))
  }

  /** A lot the keywords select: its name contains them without regard to
      case, and it is active. */
  predicate ProductMatches(p: Product, keywords: string) {
    Includes(Lower(p.name), Lower(keywords)) && p.status == Active
  }

  /** The first lot, in list order, that `ProductMatches`. */
  function FindActiveProduct(ps: seq<Product>, keywords: string): (r: Option<Product>)
    ensures r.None? <==> forall i :: 0 <= i < |ps| ==> !ProductMatches(ps[i], keywords)
    ensures r.Some? ==> exists i :: 0 <= i < |ps| && ps[i] == r.value && ProductMatches(r.value, keywords)
                                     && forall j :: 0 <= j < i ==> !ProductMatches(ps[j], keywords)
  {
    Find(ps, (p: Product) => ProductMatches(p, keywords))
  }

  // ---------------------------------------------------------------------
  // The new-order form and the smart fill
  // ---------------------------------------------------------------------

  /** The form's state slots: the draft order (customer, lot, quantity,
      notes), the pasted message and the error shown for it. */
  datatype Form = Form(
    customerId: string,
    productId: string,
    quantity: int,
    notes: string,
    aiInput: string,
    aiError: string)

  /** The draft part of the form is the same in both. */
  predicate SameDraft(a: Form, b: Form) {
    a.customerId == b.customerId && a.productId == b.productId
    && a.quantity == b.quantity && a.notes == b.notes
  }

  /** What the call to the extraction service came back with: a result,
      `null`, or an exception. */
  datatype Reply = Answered(result: Option<ParseResult>) | Threw

  const PendingAddress := "Endereço pendente"
  const AddressNotePrefix := "Endereço extraído: "
  const NotUnderstood := "Não foi possível entender o pedido. Tente preencher manualmente."
  const ProcessingFailed := "Erro ao processar com IA."

  /** The id `customerIdMatch` holds after the name lookup; `""` when no name
      was extracted or nobody matched. */
  function MatchedCustomerId(cs: seq<Customer>, r: ParseResult): (id: string)
    ensures !Truthy(r.customerName) ==> id == ""
    ensures id != "" ==> exists i :: 0 <= i < |cs| && cs[i].id == id && NameMatches(cs[i], r.customerName.value)
  {
    if Truthy(r.customerName) then
      match FindCustomerByName(cs, r.customerName.value)
      case Some(c) => c.id
      case None => ""
    else ""
  }

  /** The outcome of one smart fill: the new form state and the customer it
      created, if any. */
  datatype Pasted = Pasted(form: Form, created: Option<Customer>)

  /** Whether step 1 creates a customer: a name and a phone were extracted
      and the lookup produced no id. */
  predicate CreatesCustomer(cs: seq<Customer>, r: ParseResult) {
    MatchedCustomerId(cs, r) == "" && Truthy(r.customerName) && Truthy(r.customerPhone)
  }

  /** The customer step 1 creates, with the placeholder address when none
      was extracted. */
  function NewCustomer(r: ParseResult, newId: string, now: Timestamp): (c: Customer)
    requires r.customerName.Some? && r.customerPhone.Some?
    ensures c.id == newId && c.name == r.customerName.value && c.whatsapp == r.customerPhone.value
    ensures c.createdAt == now && c.address != ""
    ensures Truthy(r.customerAddress) ==> c.address == r.customerAddress.value
  {
    Customer(newId, r.customerName.value, r.customerPhone.value,
             if Truthy(r.customerAddress) then r.customerAddress.value else PendingAddress, now)
  }

  /** The id `customerIdMatch` holds at the end of step 1. */
  function ResolvedCustomerId(cs: seq<Customer>, r: ParseResult, newId: string): string {
    if CreatesCustomer(cs, r) then newId else MatchedCustomerId(cs, r)
  }

  /** Step 2: the first active lot the keywords select, else the current
      selection. */
  function SelectedProductId(ps: seq<Product>, r: ParseResult, current: string): string {
    if Truthy(r.productKeywords) then
      match FindActiveProduct(ps, r.productKeywords.value)
      case Some(p) => p.id
      case None => current
    else current
  }

  /** The form after steps 1 (selection) to 4, once `customerIdMatch` is
      known. */
  function Fill(f: Form, ps: seq<Product>, r: ParseResult, customerIdMatch: string): (g: Form)
    ensures g.customerId == if customerIdMatch != "" then customerIdMatch else f.customerId
    ensures g.productId == f.productId || exists i :: 0 <= i < |ps| && ps[i].id == g.productId && ps[i].status == Active
    ensures g.aiInput == f.aiInput && g.aiError == ""
  {
    var quantity := if r.quantity.Some? && r.quantity.value != 0 then r.quantity.value else f.quantity;
    var notes := if Truthy(r.customerAddress) && customerIdMatch == "" then AddressNotePrefix + r.customerAddress.value
                 else f.notes;
    Form(if customerIdMatch != "" then customerIdMatch else f.customerId,
         SelectedProductId(ps, r, f.productId), quantity, notes, f.aiInput, "")
  }

  /** Steps 1 to 4 of `handleSmartPaste` for a non-null result. */
  function Reconcile(f: Form, cs: seq<Customer>, ps: seq<Product>, r: ParseResult,
                     newId: string, now: Timestamp): (p: Pasted)
    ensures p.created.Some? <==> CreatesCustomer(cs, r)
    ensures p.created.Some? ==> p.created.value.id == newId && p.form.customerId == (if newId != "" then newId else f.customerId)
    ensures p.form.aiInput == f.aiInput && p.form.aiError == ""
  {
    Pasted(Fill(f, ps, r, ResolvedCustomerId(cs, r, newId)),
           if CreatesCustomer(cs, r) then Some(NewCustomer(r, newId, now)) else None)
  }

  /** `handleSmartPaste` as a function of the form, the collections it sees
      and the service's reply. */
  function SmartPaste(f: Form, cs: seq<Customer>, ps: seq<Product>, reply: Reply,
                      newId: string, now: Timestamp): (p: Pasted)
    ensures p.form.aiInput == f.aiInput
    ensures p.created.Some? ==>
              Trim(f.aiInput) != "" && reply.Answered? && reply.result.Some? && p.created.value.id == newId
  {
    if Trim(f.aiInput) == "" then Pasted(f, None)
    else match reply
      case Threw => Pasted(f.(aiError := ProcessingFailed), None)
      case Answered(None) => Pasted(f.(aiError := NotUnderstood), None)
      case Answered(Some(r)) => Reconcile(f, cs, ps, r, newId, now)
  }

  /** A message of white space only is ignored: nothing changes at all. */
  lemma BlankInputIsIgnored(f: Form, cs: seq<Customer>, ps: seq<Product>, reply: Reply,
                            newId: string, now: Timestamp)
    requires forall i :: 0 <= i < |f.aiInput| ==> IsTrimmable(f.aiInput[i])
    ensures SmartPaste(f, cs, ps, reply, newId, now) == Pasted(f, None)
  {
    TrimEmptyIff(f.aiInput);
  }

  /** An exception or a `null` result leaves the draft exactly as it was,
      creates nobody, and shows one of the two error messages. */
  lemma FailedReplyKeepsDraft(f: Form, cs: seq<Customer>, ps: seq<Product>, reply: Reply,
                              newId: string, now: Timestamp)
    requires reply == Threw || reply == Answered(None)
    ensures var p := SmartPaste(f, cs, ps, reply, newId, now);
            SameDraft(p.form, f) && p.form.aiInput == f.aiInput && p.created == None
    ensures Trim(f.aiInput) != "" ==>
              SmartPaste(f, cs, ps, reply, newId, now).form.aiError
                == if reply == Threw then ProcessingFailed else NotUnderstood
  {
  }

  /** When a name is extracted and the first customer whose name contains it
      has a non-empty id, that customer is selected and nobody is created. */
  lemma SelectsFirstMatchingCustomer(f: Form, cs: seq<Customer>, ps: seq<Product>, r: ParseResult,
                                     newId: string, now: Timestamp, i: nat)
    requires Truthy(r.customerName) && i < |cs| && cs[i].id != ""
    requires NameMatches(cs[i], r.customerName.value)
    requires forall j :: 0 <= j < i ==> !NameMatches(cs[j], r.customerName.value)
    ensures var p := Reconcile(f, cs, ps, r, newId, now);
            p.form.customerId == cs[i].id && p.created == None && p.form.notes == f.notes
  {
    FindAt(cs, (c: Customer) => NameMatches(c, r.customerName.value), i);
  }

  /** A customer is created exactly when a name and a phone were extracted
      and the lookup produced no id; its address falls back to the
      placeholder, and it becomes the selection. */
  lemma CreatesCustomerOnlyWhenUnmatched(f: Form, cs: seq<Customer>, ps: seq<Product>, r: ParseResult,
                                         newId: string, now: Timestamp)
    ensures var p := Reconcile(f, cs, ps, r, newId, now);
            p.created.Some? <==> MatchedCustomerId(cs, r) == "" && Truthy(r.customerName) && Truthy(r.customerPhone)
    ensures var p := Reconcile(f, cs, ps, r, newId, now);
            p.created.Some? ==>
              && p.created.value.id == newId
              && p.created.value.name == r.customerName.value
              && p.created.value.whatsapp == r.customerPhone.value
              && p.created.value.address == (if Truthy(r.customerAddress) then r.customerAddress.value else PendingAddress)
              && p.created.value.createdAt == now
              && (newId != "" ==> p.form.customerId == newId && p.form.notes == f.notes)
  {
  }

  /** With neither a match nor a name-and-phone pair, the selected customer
      stays as it was, and an extracted address becomes the note. */
  lemma UnmatchedCustomerKeepsSelection(f: Form, cs: seq<Customer>, ps: seq<Product>, r: ParseResult,
                                        newId: string, now: Timestamp)
    requires !Truthy(r.customerName) || forall i :: 0 <= i < |cs| ==> !NameMatches(cs[i], r.customerName.value)
    requires !Truthy(r.customerPhone)
    ensures var p := Reconcile(f, cs, ps, r, newId, now);
            p.form.customerId == f.customerId && p.created == None
            && p.form.notes == if Truthy(r.customerAddress) then AddressNotePrefix + r.customerAddress.value else f.notes
  {
  }

  /** The selected lot is the first active lot whose name contains the
      keywords; with no such lot, or no keywords, the selection stays. So an
      archived lot is never selected. */
  lemma SelectsFirstActiveProduct(f: Form, cs: seq<Customer>, ps: seq<Product>, r: ParseResult,
                                  newId: string, now: Timestamp)
    ensures var p := Reconcile(f, cs, ps, r, newId, now);
            p.form.productId == f.productId
            || exists i :: 0 <= i < |ps| && ps[i].id == p.form.productId && ps[i].status == Active
                           && ProductMatches(ps[i], r.productKeywords.value)
                           && forall j :: 0 <= j < i ==> !ProductMatches(ps[j], r.productKeywords.value)
    ensures (!Truthy(r.productKeywords) || forall i :: 0 <= i < |ps| ==> !ProductMatches(ps[i], r.productKeywords.value))
            ==> Reconcile(f, cs, ps, r, newId, now).form.productId == f.productId
  {
  }

  /** With keywords extracted, the first active lot whose name contains
      them is selected. */
  lemma SelectsFirstMatchingProduct(f: Form, cs: seq<Customer>, ps: seq<Product>, r: ParseResult,
                                    newId: string, now: Timestamp, i: nat)
    requires Truthy(r.productKeywords) && i < |ps|
    requires ProductMatches(ps[i], r.productKeywords.value)
    requires forall j :: 0 <= j < i ==> !ProductMatches(ps[j], r.productKeywords.value)
    ensures Reconcile(f, cs, ps, r, newId, now).form.productId == ps[i].id
  {
    FindAt(ps, (p: Product) => ProductMatches(p, r.productKeywords.value), i);
  }

  /** The quantity is adopted only when it is truthy (present and not 0);
      the note changes only to record an address when no customer id was
      found or created. */
  lemma QuantityAndNotesRules(f: Form, cs: seq<Customer>, ps: seq<Product>, r: ParseResult,
                              newId: string, now: Timestamp)
    ensures var p := Reconcile(f, cs, ps, r, newId, now);
            p.form.quantity == if r.quantity.Some? && r.quantity.value != 0 then r.quantity.value else f.quantity
    ensures var p := Reconcile(f, cs, ps, r, newId, now);
            p.form.notes != f.notes ==>
              Truthy(r.customerAddress) && ResolvedCustomerId(cs, r, newId) == ""
              && p.form.customerId == f.customerId
              && p.form.notes == AddressNotePrefix + r.customerAddress.value
    ensures Truthy(r.customerAddress) && ResolvedCustomerId(cs, r, newId) == "" ==>
              Reconcile(f, cs, ps, r, newId, now).form.notes == AddressNotePrefix + r.customerAddress.value
    ensures ResolvedCustomerId(cs, r, newId) == "" ==>
              Reconcile(f, cs, ps, r, newId, now).form.customerId == f.customerId
    ensures Reconcile(f, cs, ps, r, newId, now).form.aiError == ""
  {
  }

  // ---------------------------------------------------------------------
  // Submit
  // ---------------------------------------------------------------------

  /** The outcome of `handleSubmit`: the new form state and the order it
      forwards to the store, if any. */
  datatype Submitted = Submitted(form: Form, order: Option<OrderInput>)

  /** `handleSubmit`: with no customer or no lot selected nothing happens;
      otherwise one order is forwarded and the form is reset. */
  function Submit(f: Form): (s: Submitted)
    ensures s.order.None? <==> f.customerId == "" || f.productId == ""
    ensures s.order.None? ==> s.form == f
    ensures s.order.Some? ==>
              s.order.value == OrderInput(f.customerId, f.productId, f.quantity, Some(f.notes))
              && s.form == Form("", "", 1, "", "", f.aiError)
  {
    if f.customerId == "" || f.productId == "" then Submitted(f, None)
    else Submitted(Form("", "", 1, "", "", f.aiError),
                   Some(OrderInput(f.customerId, f.productId, f.quantity, Some(f.notes))))
  }

  /** Submitting the form a second time, right after it was reset, forwards
      nothing: one filled form places at most one order. */
  lemma SubmitTwiceForwardsOnce(f: Form)
    ensures Submit(Submit(f).form).order.Some? ==> Submit(f).order.None?
  {
  }

  // ---------------------------------------------------------------------
  // The form as state
  // ---------------------------------------------------------------------

  class OrderForm {
    var customerId: string
    var productId: string
    var quantity: int
    var notes: string
    var aiInput: string
    var aiError: string

    function State(): Form
      reads this
    {
      Form(customerId, productId, quantity, notes, aiInput, aiError)
    }

    /** The initial state: nothing selected, quantity 1. */
    constructor ()
      ensures State() == Form("", "", 1, "", "", "")
    {
      customerId, productId, quantity := "", "", 1;
      notes, aiInput, aiError := "", "", "";
    }

    /** The pasted message the operator types. */
    method SetInput(text: string)
      modifies this
      ensures State() == old(State()).(aiInput := text)
    {
      aiInput := text;
    }

    /** `handleSmartPaste`, step by step: look the customer up, create one
        through the store when allowed, then set the selections, quantity
        and note. */
    method HandleSmartPaste(store: Store, reply: Reply, newCustomerId: string, now: Timestamp)
      requires store.Valid()
      requires forall i :: 0 <= i < |store.customers| ==> store.customers[i].id != newCustomerId
      modifies this, store
      ensures store.Valid()
      ensures var p := SmartPaste(old(State()), old(store.customers), old(store.products), reply, newCustomerId, now);
              State() == p.form
              && store.customers == old(store.customers) + (if p.created.Some? then [p.created.value] else [])
      ensures store.products == old(store.products) && store.orders == old(store.orders)
    {
      if Trim(aiInput) == "" {
        return;
      }
      ghost var f := State();
      aiError := "";
      match reply {
        case Threw =>
          aiError := ProcessingFailed;
        case Answered(None) =>
          aiError := NotUnderstood;
        case Answered(Some(r)) =>
          assert Reconcile(State(), store.customers, store.products, r, newCustomerId, now)
              == Reconcile(f, store.customers, store.products, r, newCustomerId, now);
          ApplyResult(store, r, newCustomerId, now);
      }
    }

    /** Step 1 of `handleSmartPaste`: look the customer up by name and, when
        allowed, create one through the store. */
    static method ResolveCustomer(store: Store, r: ParseResult, newCustomerId: string, now: Timestamp)
      returns (customerIdMatch: string)
      requires store.Valid()
      requires forall i :: 0 <= i < |store.customers| ==> store.customers[i].id != newCustomerId
      modifies store
      ensures store.Valid()
      ensures customerIdMatch == ResolvedCustomerId(old(store.customers), r, newCustomerId)
      ensures store.customers == old(store.customers)
                + if CreatesCustomer(old(store.customers), r) then [NewCustomer(r, newCustomerId, now)] else []
      ensures store.products == old(store.products) && store.orders == old(store.orders)
    {
      customerIdMatch := "";
      if Truthy(r.customerName) {
        var found := FindCustomerByName(store.customers, r.customerName.value);
        if found.Some? {
          customerIdMatch := found.value.id;
        }
      }
      assert customerIdMatch == MatchedCustomerId(store.customers, r);
      if customerIdMatch == "" && Truthy(r.customerName) && Truthy(r.customerPhone) {
        var address := if Truthy(r.customerAddress) then r.customerAddress.value else PendingAddress;
        var c := store.AddCustomer(CustomerInput(r.customerName.value, r.customerPhone.value, address),
                                   newCustomerId, now);
        customerIdMatch := c.id;
      }
    }

    /** Steps 1 to 4 of `handleSmartPaste` for a non-null result. */
    method ApplyResult(store: Store, r: ParseResult, newCustomerId: string, now: Timestamp)
      requires store.Valid()
      requires forall i :: 0 <= i < |store.customers| ==> store.customers[i].id != newCustomerId
      modifies this, store
      ensures store.Valid()
      ensures var p := Reconcile(old(State()), old(store.customers), old(store.products), r, newCustomerId, now);
              State() == p.form
              && store.customers == old(store.customers) + (if p.created.Some? then [p.created.value] else [])
      ensures store.products == old(store.products) && store.orders == old(store.orders)
    {
      var customerIdMatch := ResolveCustomer(store, r, newCustomerId, now);
      ApplyFill(store.products, r, customerIdMatch);
    }

    /** The selection (end of step 1) and steps 2 to 4, on the form alone. */
    method ApplyFill(products: seq<Product>, r: ParseResult, customerIdMatch: string)
      modifies this
      ensures State() == Fill(old(State()), products, r, customerIdMatch)
    {
      ghost var target := Fill(State(), products, r, customerIdMatch);
      if customerIdMatch != "" {
        customerId := customerIdMatch;
      }
      assert customerId == target.customerId;
      if Truthy(r.productKeywords) {
        var productMatch := FindActiveProduct(products, r.productKeywords.value);
        if productMatch.Some? {
          productId := productMatch.value.id;
        }
      }
      assert productId == target.productId;
      if r.quantity.Some? && r.quantity.value != 0 {
        quantity := r.quantity.value;
      }
      assert quantity == target.quantity;
      if Truthy(r.customerAddress) && customerIdMatch == "" {
        notes := AddressNotePrefix + r.customerAddress.value;
      }
      assert notes == target.notes;
      aiError := "";
    }

    /** `handleSubmit`: forwards the draft to `addOrder` and resets the
        form — also when the store then refuses the order. */
    method HandleSubmit(store: Store, orderId: string, date: Timestamp)
      requires store.Valid()
      requires forall i :: 0 <= i < |store.orders| ==> store.orders[i].id != orderId
      modifies this, store
      ensures store.Valid()
      ensures State() == Submit(old(State())).form
      ensures store.customers == old(store.customers)
      ensures var s := Submit(old(State()));
              if s.order.Some? && StockCheck(old(store.products), s.order.value.productId, s.order.value.quantity).None? then
                store.orders == [NewOrder(s.order.value, orderId, date)] + old(store.orders)
                && store.products == Decrement(old(store.products), s.order.value.productId, s.order.value.quantity)
              else
                store.orders == old(store.orders) && store.products == old(store.products)
    {
      if customerId == "" || productId == "" {
        return;
      }
      var input := OrderInput(customerId, productId, quantity, Some(notes));
      var _ := store.AddOrder(input, orderId, date);
      customerId, productId, quantity, notes := "", "", 1, "";
      aiInput := "";
    }
  }

  // ---------------------------------------------------------------------
  // Tabs
  // ---------------------------------------------------------------------

  datatype Tab = AllTab | PendingTab | ShippedTab

  /** The "Pendentes" tab: pending orders and orders with a label. */
  predicate InPendingTab(o: Order) {
    o.status == Pending || o.status == LabelGenerated
  }

  /** The "Enviados" tab: shipped and delivered orders. */
  predicate InShippedTab(o: Order) {
    o.status == Shipped || o.status == Delivered
  }

  function TabOrders(os: seq<Order>, tab: Tab): (r: seq<Order>)
    ensures IsSubsequence(r, os)
    ensures tab == AllTab ==> r == os
    ensures forall i :: 0 <= i < |r| ==> (tab == PendingTab ==> InPendingTab(r[i])) && (tab == ShippedTab ==> InShippedTab(r[i]))
  {
    match tab
    case AllTab =>
      IsSubsequenceRefl(os);
      os
    case PendingTab =>
      FilterIsSubsequence(os, InPendingTab);
      Filter(os, InPendingTab)
    case ShippedTab =>
      FilterIsSubsequence(os, InShippedTab);
      Filter(os, InShippedTab)
  }

  /** The two status tabs split the full list: every order is in exactly
      one of them. */
  lemma TabsPartitionOrders(os: seq<Order>)
    ensures multiset(TabOrders(os, PendingTab)) + multiset(TabOrders(os, ShippedTab)) == multiset(TabOrders(os, AllTab))
    ensures |TabOrders(os, PendingTab)| + |TabOrders(os, ShippedTab)| == |os|
  {
    FilterPartition(os, InPendingTab, InShippedTab);
  }

  predicate SortedNewestFirst(os: seq<Order>) {
    forall i, j :: 0 <= i < j < |os| ==> os[i].date >= os[j].date
  }

  /** Puts `o` before the first order that is strictly older. */
  function InsertByDate(o: Order, s: seq<Order>): (r: seq<Order>)
    requires SortedNewestFirst(s)
    ensures SortedNewestFirst(r)
    ensures multiset(r) == multiset(s) + multiset{o}
    ensures |r| == |s| + 1
    ensures r[0] == o || (s != [] && r[0] == s[0])
  {
    if s == [] || o.date >= s[0].date then [o] + s
    else
      var rest := InsertByDate(o, s[1..]);
      assert multiset(s) == multiset{s[0]} + multiset(s[1..]) by {
        assert s == [s[0]] + s[1..];
      }
      [s[0]] + rest
  }

  /** `.sort((a, b) => date(b) - date(a))`: newest first. */
  function SortNewestFirst(os: seq<Order>): (r: seq<Order>)
    ensures SortedNewestFirst(r)
    ensures multiset(r) == multiset(os)
  {
    if os == [] then []
    else
      assert os == [os[0]] + os[1..];
      InsertByDate(os[0], SortNewestFirst(os[1..]))
  }

  /** `filteredOrders`: the orders of the tab, newest first. */
  function FilteredOrders(os: seq<Order>, tab: Tab): (r: seq<Order>)
    ensures SortedNewestFirst(r)
    ensures multiset(r) == multiset(TabOrders(os, tab))
  {
    SortNewestFirst(TabOrders(os, tab))
  }

  /** An order is listed under a tab exactly when its status belongs to it. */
  lemma FilteredOrdersMembership(os: seq<Order>, tab: Tab, o: Order)
    ensures o in FilteredOrders(os, tab) <==>
              o in os && match tab
                         case AllTab => true
                         case PendingTab => InPendingTab(o)
                         case ShippedTab => InShippedTab(o)
  {
    var r := FilteredOrders(os, tab);
    assert o in r <==> o in multiset(r);
    match tab
    case AllTab =>
    case PendingTab =>
      FilterCount(os, InPendingTab, o);
    case ShippedTab =>
      FilterCount(os, InShippedTab, o);
  }
}
