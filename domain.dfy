/** The records of the store: customers, product lots and orders, and the
    structured guess that the text-extraction service returns for a pasted
    order message. Timestamps (ISO-8601 strings in the application) are held
    as the number of milliseconds they denote; prices as whole cents. */
module Domain {
  import opened Seqs

  type Timestamp = int

  datatype Customer = Customer(
    id: string,
    name: string,
    whatsapp: string,
    address: string,
    createdAt: Timestamp)

  datatype ProductStatus = Active | Archived

  datatype Product = Product(
    id: string,
    name: string,
    description: Option<string>,
    totalQuantity: int,
    remainingQuantity: int,
    price: Option<int>,
    status: ProductStatus)

  /** The four workflow labels ("Pendente", "Etiqueta Gerada", "Enviado",
      "Entregue"); nothing enforces an order between them. */
  datatype OrderStatus = Pending | LabelGenerated | Shipped | Delivered

  datatype Order = Order(
    id: string,
    customerId: string,
    productId: string,
    quantity: int,
    status: OrderStatus,
    notes: Option<string>,
    date: Timestamp,
    isPaid: bool)

  /** What a caller supplies to create a customer (`Omit<Customer, 'id' |
      'createdAt'>`). */
  datatype CustomerInput = CustomerInput(name: string, whatsapp: string, address: string)

  /** What a caller supplies to create a product (`Omit<Product, 'id' |
      'remainingQuantity' | 'status'>`). */
  datatype ProductInput = ProductInput(
    name: string,
    description: Option<string>,
    totalQuantity: int,
    price: Option<int>)

  /** What a caller supplies to place an order (`Omit<Order, 'id' | 'status'
      | 'date' | 'isPaid'>`). */
  datatype OrderInput = OrderInput(
    customerId: string,
    productId: string,
    quantity: int,
    notes: Option<string>)

  /** The extraction service's structured guess; every field may be absent. */
  datatype ParseResult = ParseResult(
    customerName: Option<string>,
    customerAddress: Option<string>,
    customerPhone: Option<string>,
    productKeywords: Option<string>,
    quantity: Option<int>)

  predicate IsActive(p: Product) {
    p.status == Active
  }

  /** `products.filter(p => p.status === 'active')`. */
  function ActiveProducts(ps: seq<Product>): (r: seq<Product>)
    ensures forall i :: 0 <= i < |r| ==> IsActive(r[i]) && r[i] in ps
    ensures forall i :: 0 <= i < |ps| && IsActive(ps[i]) ==> ps[i] in r
  {
    Filter(ps, IsActive)
  }

  /** The active lots are the input with the archived ones deleted, in the
      original order. */
  lemma ActiveProductsOrder(ps: seq<Product>)
    ensures IsSubsequence(ActiveProducts(ps), ps)
    ensures (forall i :: 0 <= i < |ps| ==> IsActive(ps[i])) ==> ActiveProducts(ps) == ps
  {
    FilterIsSubsequence(ps, IsActive);
    if forall i :: 0 <= i < |ps| ==> IsActive(ps[i]) {
      FilterAll(ps, IsActive);
    }
  }

  /** JavaScript truthiness of an optional string: present and non-empty. */
  predicate Truthy(s: Option<string>) {
    s.Some? && s.value != ""
  }

  /** The stock bound every product lot is meant to keep. */
  predicate StockOk(p: Product) {
    0 <= p.remainingQuantity <= p.totalQuantity
  }
}
