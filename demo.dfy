/**
 * The demonstration at the end of shoppingSystem.py, replayed against the
 * model: two customers, three products, two orders.
 */
module Demo {
  import opened Wrappers
  import opened Validation
  import opened Shop
  import D = OrderedDict

  lemma AnnaAddressValid()
    ensures ValidEmail("anna@mail.com")
  {
    var anna := "anna@mail.com";
    assert FindFirst(anna, '@', 0, 13) == Some(4) && AllIn(anna, 0, 4, LocalChars);
    assert FindLast(anna, '.', 5, 13) == Some(9) && AllIn(anna, 5, 13, DomainChars);
    assert AllIn(anna, 10, 13, Letters);
  }

  lemma KarenAddressValid()
    ensures ValidEmail("karen@mail.com")
  {
    var karen := "karen@mail.com";
    assert FindFirst(karen, '@', 0, 14) == Some(5) && AllIn(karen, 0, 5, LocalChars);
    assert FindLast(karen, '.', 6, 14) == Some(10) && AllIn(karen, 6, 14, DomainChars);
    assert AllIn(karen, 11, 14, Letters);
  }

  lemma DemoNamesValid()
    ensures ValidName("Anna") && ValidName("Karen") && !ValidName(" \t ")
  {
  }

  /** `re.match` with `$` lets one final newline through. */
  lemma TrailingNewlineAccepted()
    ensures ValidEmail("anna@mail.com\n")
  {
    var s := "anna@mail.com\n";
    assert FindFirst(s, '@', 0, 13) == Some(4) && AllIn(s, 0, 4, LocalChars);
    assert FindLast(s, '.', 5, 13) == Some(9) && AllIn(s, 5, 13, DomainChars);
    assert AllIn(s, 10, 13, Letters);
  }

  /** No top-level label: there is no `.` after the `@`. */
  lemma MissingTopLevelRejected()
    ensures !ValidEmail("a@b")
  {
  }

  /** No `@` at all. */
  lemma MissingAtRejected()
    ensures !ValidEmail("not-an-email")
  {
  }

  /** A one-letter top-level label is too short. */
  lemma ShortTopLevelRejected()
    ensures !ValidEmail("anna@mail.c")
  {
  }

  /** The demonstration's three products, with the ids they receive from a fresh counter. */
  const Phone := Product(0, "Smartphone", 120000, "High-end smartphone with great camera.", true)
  const Headphones := Product(1, "Headphones", 15000, "Wireless headphones with noise cancellation.", true)
  const Book := Product(2, "Programming Book", 8000, "Learn Python with real-world examples.", true)

  /** `order` holds `products`, is completed and has recorded `payment`. */
  ghost predicate Paid(order: Order, products: seq<Product>, payment: Payment)
    reads order
  {
    order.products == products && order.status == Completed && order.payment == Some(payment)
  }

  /** Constructs a customer with valid details and registers it under a new id. */
  method EnrolOne(ids: IdCounters, system: ShoppingSystem, name: string, email: string) returns (c: Customer)
    requires system.Valid() && ids.customer !in system.customers
    requires ValidName(name) && ValidEmail(email)
    modifies ids`customer, system`customers
    ensures system.Valid() && fresh(c) && fresh(c.cart)
    ensures c.id == old(ids.customer) && ids.customer == old(ids.customer) + 1
    ensures c.name == name && c.email == email
    ensures system.customers == old(system.customers)[c.id := c]
    ensures c.cart.products == D.Empty() && c.orders == map[]
  {
    var r := Customer.Create(ids, name, email);
    c := r.value;
    var _ := system.RegisterCustomer(c);
  }

  /** Constructs and registers two customers with valid details. */
  method Enrol(ids: IdCounters, system: ShoppingSystem, name1: string, email1: string, name2: string, email2: string)
    returns (first: Customer, second: Customer)
    requires system.Valid() && system.customers == map[]
    requires ValidName(name1) && ValidEmail(email1) && ValidName(name2) && ValidEmail(email2)
    modifies ids`customer, system`customers
    ensures system.Valid() && fresh(first) && fresh(second) && fresh(first.cart) && fresh(second.cart)
    ensures first.cart != second.cart
    ensures first.id == old(ids.customer) && second.id == old(ids.customer) + 1
    ensures ids.customer == old(ids.customer) + 2
    ensures first.name == name1 && first.email == email1 && second.name == name2 && second.email == email2
    ensures system.customers == map[first.id := first, second.id := second]
    ensures first.cart.products == D.Empty() && second.cart.products == D.Empty()
    ensures first.orders == map[] && second.orders == map[]
  {
    first := EnrolOne(ids, system, name1, email1);
    second := EnrolOne(ids, system, name2, email2);
  }

  /** Puts the three products of the demonstration into the catalogue. */
  method Stock(ids: IdCounters, system: ShoppingSystem) returns (phone: Product, headphones: Product, book: Product)
    requires system.Valid() && system.products == map[]
    modifies ids`product, system`products
    ensures system.Valid()
    ensures phone == Phone.(id := old(ids.product))
    ensures headphones == Headphones.(id := old(ids.product) + 1)
    ensures book == Book.(id := old(ids.product) + 2)
    ensures ids.product == old(ids.product) + 3
    ensures system.products == map[phone.id := phone, headphones.id := headphones, book.id := book]
  {
    phone := NewProduct(ids, Phone.name, Phone.price, Phone.description);
    headphones := NewProduct(ids, Headphones.name, Headphones.price, Headphones.description);
    book := NewProduct(ids, Book.name, Book.price, Book.description);
    var _ := system.AddProduct(phone);
    var _ := system.AddProduct(headphones);
    var _ := system.AddProduct(book);
  }

  /** Anna puts the smartphone and the book in her cart, Karen the headphones. */
  method FillCarts(anna: Customer, karen: Customer, phone: Product, headphones: Product, book: Product)
    requires anna.cart != karen.cart && phone.id != book.id
    requires anna.cart.products == D.Empty() && karen.cart.products == D.Empty()
    modifies anna.cart, karen.cart
    ensures D.Values(anna.cart.products) == [phone, book]
    ensures D.Values(karen.cart.products) == [headphones]
  {
    D.PutNew(anna.cart.products, phone.id, phone);
    anna.AddToCart(phone);
    D.PutNew(anna.cart.products, book.id, book);
    anna.AddToCart(book);
    D.PutNew(karen.cart.products, headphones.id, headphones);
    karen.AddToCart(headphones);
  }

  /** A fresh system with the two customers registered. */
  method Register(annaName: string, annaEmail: string, karenName: string, karenEmail: string)
    returns (ids: IdCounters, system: ShoppingSystem, anna: Customer, karen: Customer)
    requires ValidName(annaName) && ValidEmail(annaEmail) && ValidName(karenName) && ValidEmail(karenEmail)
    ensures fresh(ids) && fresh(system) && fresh(anna) && fresh(karen) && fresh(anna.cart) && fresh(karen.cart)
    ensures system.Valid() && system.orders == [] && system.products == map[]
    ensures anna.id == 0 && karen.id == 1 && anna.cart != karen.cart
    ensures system.customers == map[0 := anna, 1 := karen]
    ensures anna.orders == map[] && karen.orders == map[]
    ensures anna.name == annaName && anna.email == annaEmail && karen.name == karenName && karen.email == karenEmail
    ensures ids.customer == 2 && ids.product == 0 && ids.order == 0 && ids.payment == 0
    ensures anna.cart.products == D.Empty() && karen.cart.products == D.Empty()
  {
    ids := new IdCounters();
    system := new ShoppingSystem();
    anna, karen := Enrol(ids, system, annaName, annaEmail, karenName, karenEmail);
  }

  /** A fresh system with the two customers registered and the three products listed. */
  method Open(annaName: string, annaEmail: string, karenName: string, karenEmail: string)
    returns (ids: IdCounters, system: ShoppingSystem, anna: Customer, karen: Customer)
    requires ValidName(annaName) && ValidEmail(annaEmail) && ValidName(karenName) && ValidEmail(karenEmail)
    ensures fresh(ids) && fresh(system) && fresh(anna) && fresh(karen) && fresh(anna.cart) && fresh(karen.cart)
    ensures system.Valid() && system.Issued(ids) && system.orders == []
    ensures anna.id == 0 && karen.id == 1 && anna.cart != karen.cart
    ensures system.customers == map[0 := anna, 1 := karen]
    ensures system.products == map[0 := Phone, 1 := Headphones, 2 := Book]
    ensures anna.name == annaName && anna.email == annaEmail && karen.name == karenName && karen.email == karenEmail
    ensures anna.orders == map[] && karen.orders == map[]
    ensures ids.order == 0 && ids.payment == 0
    ensures anna.cart.products == D.Empty() && karen.cart.products == D.Empty()
  {
    ids, system, anna, karen := Register(annaName, annaEmail, karenName, karenEmail);
    var phone, headphones, book := Stock(ids, system);
    assert phone == Phone && headphones == Headphones && book == Book;
  }

  /** The state of the demonstration just before the first order. */
  method SetUp(annaName: string, annaEmail: string, karenName: string, karenEmail: string)
    returns (ids: IdCounters, system: ShoppingSystem, anna: Customer, karen: Customer)
    requires ValidName(annaName) && ValidEmail(annaEmail) && ValidName(karenName) && ValidEmail(karenEmail)
    ensures fresh(ids) && fresh(system) && fresh(anna) && fresh(karen) && fresh(anna.cart) && fresh(karen.cart)
    ensures system.Valid() && system.Issued(ids) && system.orders == []
    ensures anna.id == 0 && karen.id == 1 && anna.cart != karen.cart
    ensures system.customers == map[0 := anna, 1 := karen]
    ensures system.products == map[0 := Phone, 1 := Headphones, 2 := Book]
    ensures anna.name == annaName && anna.email == annaEmail && karen.name == karenName && karen.email == karenEmail
    ensures anna.orders == map[] && karen.orders == map[]
    ensures ids.order == 0 && ids.payment == 0
    ensures D.Values(anna.cart.products) == [Phone, Book]
    ensures D.Values(karen.cart.products) == [Headphones]
  {
    ids, system, anna, karen := Open(annaName, annaEmail, karenName, karenEmail);
    FillCarts(anna, karen, Phone, Headphones, Book);
  }

  /** The demonstration's own customers: Anna and Karen with their addresses. */
  method DemoSetUp() returns (ids: IdCounters, system: ShoppingSystem, anna: Customer, karen: Customer)
    ensures fresh(ids) && fresh(system) && fresh(anna) && fresh(karen) && fresh(anna.cart) && fresh(karen.cart)
    ensures system.Valid() && system.Issued(ids) && system.orders == []
    ensures anna.id == 0 && karen.id == 1 && anna.cart != karen.cart
    ensures system.customers == map[0 := anna, 1 := karen]
    ensures system.products == map[0 := Phone, 1 := Headphones, 2 := Book]
    ensures anna.name == "Anna" && anna.email == "anna@mail.com"
    ensures karen.name == "Karen" && karen.email == "karen@mail.com"
    ensures anna.orders == map[] && karen.orders == map[]
    ensures ids.order == 0 && ids.payment == 0
    ensures D.Values(anna.cart.products) == [Phone, Book]
    ensures D.Values(karen.cart.products) == [Headphones]
  {
    AnnaAddressValid();
    KarenAddressValid();
    DemoNamesValid();
    ids, system, anna, karen := SetUp("Anna", "anna@mail.com", "Karen", "karen@mail.com");
  }

  /** Anna checks out her phone and book. */
  method AnnaPays(ids: IdCounters, system: ShoppingSystem, anna: Customer, karen: Customer,
                  paymentMethod: string, date: int)
    requires system.Valid() && system.Issued(ids) && system.orders == []
    requires anna.id == 0 && karen.id == 1 && anna.cart != karen.cart
    requires system.customers == map[0 := anna, 1 := karen]
    requires D.Values(anna.cart.products) == [Phone, Book]
    modifies system`orders, system`owners, ids`order, ids`payment, anna, anna.cart
    ensures system.Valid() && system.Issued(ids) && |system.orders| == 1
    ensures system.customers == old(system.customers)
    ensures system.orders[0].id == old(ids.order)
    ensures Paid(system.orders[0], [Phone, Book], Payment(old(ids.payment), 128000, paymentMethod, date))
    ensures anna.orders == old(anna.orders)[system.orders[0].id := system.orders[0]]
    ensures anna.cart.products == D.Empty()
    ensures anna.name == old(anna.name) && anna.email == old(anna.email)
    ensures ids.order == old(ids.order) + 1 && ids.payment == old(ids.payment) + 1
  {
    var outcome := system.ProcessOrder(ids, anna.id, paymentMethod, date);
    assert outcome == Pass;
    assert [Phone, Book][..1] == [Phone];
    assert Total([Phone]) == Phone.price by { assert [Phone][..0] == []; }
  }

  /** Karen checks out her headphones; Anna's order stays first in the log. */
  method KarenPays(ids: IdCounters, system: ShoppingSystem, anna: Customer, karen: Customer,
                   paymentMethod: string, date: int)
    requires system.Valid() && system.Issued(ids) && |system.orders| == 1
    requires anna.id == 0 && karen.id == 1 && anna.cart != karen.cart
    requires system.customers == map[0 := anna, 1 := karen]
    requires D.Values(karen.cart.products) == [Headphones]
    modifies system`orders, system`owners, ids`order, ids`payment, karen, karen.cart
    ensures system.Valid() && system.Issued(ids) && |system.orders| == 2
    ensures system.customers == old(system.customers)
    ensures system.orders[0] == old(system.orders[0])
    ensures system.orders[1].id == old(ids.order)
    ensures Paid(system.orders[1], [Headphones], Payment(old(ids.payment), 15000, paymentMethod, date))
    ensures karen.orders == old(karen.orders)[system.orders[1].id := system.orders[1]]
    ensures karen.cart.products == D.Empty()
    ensures karen.name == old(karen.name) && karen.email == old(karen.email)
    ensures ids.order == old(ids.order) + 1 && ids.payment == old(ids.payment) + 1
  {
    var outcome := system.ProcessOrder(ids, karen.id, paymentMethod, date);
    assert outcome == Pass;
    assert system.orders[..1] == old(system.orders);
    assert [Headphones][..0] == [];
  }

  /**
   * A second checkout of the emptied cart of customer 0, and a checkout for
   * the unregistered id 7, are both refused and change nothing.
   */
  method Refusals(ids: IdCounters, system: ShoppingSystem, anna: Customer, paymentMethod: string, date: int)
    returns (again: Outcome<Error>, stranger: Outcome<Error>)
    requires system.Valid() && system.Issued(ids)
    requires 0 in system.customers && system.customers[0] == anna && 7 !in system.customers
    requires anna.cart.products == D.Empty()
    modifies system`orders, system`owners, ids`order, ids`payment, anna, anna.cart
    ensures again == Fail(EmptyCart) && stranger == Fail(CustomerNotFound(7))
    ensures system.Valid() && system.Issued(ids)
    ensures system.orders == old(system.orders)
    ensures unchanged(ids) && unchanged(anna) && unchanged(anna.cart)
  {
    again := system.ProcessOrder(ids, 0, paymentMethod, date);
    stranger := system.ProcessOrder(ids, 7, paymentMethod, date);
  }

  /** The demonstration up to Anna's order, paid 120000 + 8000 by bank transfer. */
  method AnnaFirst(date: int) returns (ids: IdCounters, system: ShoppingSystem, anna: Customer, karen: Customer)
    ensures fresh(ids) && fresh(system) && fresh(anna) && fresh(karen) && fresh(anna.cart) && fresh(karen.cart)
    ensures system.Valid() && system.Issued(ids)
    ensures anna.id == 0 && karen.id == 1 && anna.cart != karen.cart
    ensures system.customers == map[0 := anna, 1 := karen]
    ensures |system.orders| == 1 && system.orders[0].id == 0
    ensures Paid(system.orders[0], [Phone, Book], Payment(0, 128000, "Bank Transfer", date))
    ensures anna.orders == map[0 := system.orders[0]] && karen.orders == map[]
    ensures anna.cart.products == D.Empty() && D.Values(karen.cart.products) == [Headphones]
    ensures ids.order == 1 && ids.payment == 1
  {
    ids, system, anna, karen := DemoSetUp();
    AnnaPays(ids, system, anna, karen, "Bank Transfer", date);
  }

  /**
   * The demonstration from registration to both orders: Anna's order of the
   * smartphone and the book is paid 120000 + 8000 by bank transfer, Karen's
   * order of the headphones 15000 by credit card; both are in the global log
   * in that order and in their customers' histories, and both carts are empty.
   */
  method BothPay(date: int) returns (ids: IdCounters, system: ShoppingSystem, anna: Customer, karen: Customer)
    ensures fresh(ids) && fresh(system) && fresh(anna) && fresh(anna.cart)
    ensures system.Valid() && system.Issued(ids) && system.customers == map[0 := anna, 1 := karen]
    ensures |system.orders| == 2 && system.orders[0].id == 0 && system.orders[1].id == 1
    ensures Paid(system.orders[0], [Phone, Book], Payment(0, 128000, "Bank Transfer", date))
    ensures Paid(system.orders[1], [Headphones], Payment(1, 15000, "Credit Card", date))
    ensures anna.orders == map[0 := system.orders[0]] && karen.orders == map[1 := system.orders[1]]
    ensures anna.cart.products == D.Empty() && karen.cart.products == D.Empty()
  {
    ids, system, anna, karen := AnnaFirst(date);
    KarenPays(ids, system, anna, karen, "Credit Card", date);
  }

  /**
   * The whole demonstration, followed by a further order from Anna's emptied
   * cart and one for an unregistered id, both refused; the two paid orders
   * are still the whole log.
   */
  method AnnaAndKarenPlaceOrders(date: int)
    returns (system: ShoppingSystem, anna: Customer, karen: Customer,
             again: Outcome<Error>, stranger: Outcome<Error>)
    ensures system.Valid() && system.customers == map[0 := anna, 1 := karen]
    ensures |system.orders| == 2 && system.orders[0].id == 0 && system.orders[1].id == 1
    ensures Paid(system.orders[0], [Phone, Book], Payment(0, 128000, "Bank Transfer", date))
    ensures Paid(system.orders[1], [Headphones], Payment(1, 15000, "Credit Card", date))
    ensures anna.orders == map[0 := system.orders[0]] && karen.orders == map[1 := system.orders[1]]
    ensures anna.cart.products == D.Empty() && karen.cart.products == D.Empty()
    ensures again == Fail(EmptyCart) && stranger == Fail(CustomerNotFound(7))
  {
    var ids;
    ids, system, anna, karen := BothPay(date);
    again, stranger := Refusals(ids, system, anna, "Bank Transfer", date);
  }

  /**
   * Paying an order twice records a second payment in place of the first:
   * the first payment's id is used up and only the second one is kept.
   */
  method PaymentReplaced(ids: IdCounters, product: Product, date: int) returns (order: Order)
    modifies ids`order, ids`payment
    ensures fresh(order) && order.products == [product] && order.status == Completed
    ensures order.payment == Some(Payment(old(ids.payment) + 1, product.price, "Cash", date))
    ensures ids.payment == old(ids.payment) + 2
  {
    order := new Order(ids);
    order.AddProduct(product);
    order.ProcessPayment(ids, "Credit Card", date);
    assert [product][..0] == [];
    order.ProcessPayment(ids, "Cash", date);
  }
}
