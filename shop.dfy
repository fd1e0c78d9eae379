/**
 * The in-memory object model of the online shopping system: products,
 * payments, shopping carts, orders, customers and the system that registers
 * customers and products and turns a customer's cart into a paid order.
 */
module Shop {
  import opened Wrappers
  import opened Validation
  import D = OrderedDict

  /**
   * The class-wide id counters of Customer, Product, Order and Payment.
   * Each constructor takes the current value of its counter as the new id
   * and then increments that counter.
   */
  class IdCounters {
    var customer: nat
    var product: nat
    var order: nat
    var payment: nat

    /** All four counters start at zero. */
    constructor ()
      ensures customer == 0 && product == 0 && order == 0 && payment == 0
    {
      customer, product, order, payment := 0, 0, 0, 0;
    }
  }

  /** The ways an operation of the model raises. */
  datatype Error =
    | InvalidName
    | InvalidEmail
    | DuplicateCustomer(customerId: nat)
    | DuplicateProduct(productId: nat)
    | CustomerNotFound(customerId: nat)
    | EmptyCart

  // ---------------------------------------------------------------------
  // Product and Payment: never changed after construction
  // ---------------------------------------------------------------------

  datatype Product = Product(id: nat, name: string, price: int, description: string, availability: bool)

  /** `Product(name, price, description, availability=True)` */
  method NewProduct(ids: IdCounters, name: string, price: int, description: string, availability: bool := true)
    returns (p: Product)
    modifies ids`product
    ensures p == Product(old(ids.product), name, price, description, availability)
    ensures ids.product == old(ids.product) + 1
  {
    p := Product(ids.product, name, price, description, availability);
    ids.product := ids.product + 1;
  }

  /** A payment; `date` is the clock reading taken at construction. */
  datatype Payment = Payment(id: nat, amount: int, paymentMethod: string, date: int)

  /** `Payment(amount, payment_method)`, with the clock reading passed in. */
  method NewPayment(ids: IdCounters, amount: int, paymentMethod: string, date: int)
    returns (p: Payment)
    modifies ids`payment
    ensures p == Payment(old(ids.payment), amount, paymentMethod, date)
    ensures ids.payment == old(ids.payment) + 1
  {
    p := Payment(ids.payment, amount, paymentMethod, date);
    ids.payment := ids.payment + 1;
  }

  /** `sum(product.price for product in products)` */
  function Total(products: seq<Product>): (t: int)
    ensures (forall i :: 0 <= i < |products| ==> products[i].price >= 0) ==> t >= 0
  {
    if products == [] then 0
    else Total(products[..|products| - 1]) + products[|products| - 1].price
  }

  lemma {:induction false} TotalAppend(a: seq<Product>, b: seq<Product>)
    ensures Total(a + b) == Total(a) + Total(b)
  {
    if b == [] {
      assert a + b == a;
    } else {
      assert (a + b)[..|a + b| - 1] == a + b[..|b| - 1];
      TotalAppend(a, b[..|b| - 1]);
    }
  }

  /** With no negative prices the total is no less than any one price. */
  lemma {:induction false} TotalBounds(products: seq<Product>)
    requires forall i :: 0 <= i < |products| ==> products[i].price >= 0
    ensures forall i :: 0 <= i < |products| ==> products[i].price <= Total(products)
  {
    if products != [] {
      var front := products[..|products| - 1];
      TotalBounds(front);
      assert forall i :: 0 <= i < |front| ==> products[i] == front[i];
    }
  }

  // ---------------------------------------------------------------------
  // ShoppingCart
  // ---------------------------------------------------------------------

  /** A cart: a dict from product id to product, in insertion order. */
  class ShoppingCart {
    var products: D.Dict<Product>

    constructor ()
      ensures products == D.Empty()
    {
      products := D.Empty();
    }

    /** `self.products[product.id] = product` */
    method AddProduct(product: Product)
      modifies this
      ensures products == D.Put(old(products), product.id, product)
    {
      products := D.Put(products, product.id, product);
    }

    /**
     * Deletes the entry of `product.id` if there is one; `found` is whether
     * it was there (the source reports "not found" otherwise, without raising).
     */
    method RemoveProduct(product: Product) returns (found: bool)
      modifies this
      ensures found == (product.id in old(products.items))
      ensures products == D.Delete(old(products), product.id)
      ensures !found ==> products == old(products)
      ensures found ==> products.items == old(products.items) - {product.id}
    {
      found := product.id in products.items;
      if found {
        products := D.Delete(products, product.id);
      } else {
        D.DeleteAbsent(products, product.id);
      }
    }

    /** `self.products.clear()` */
    method ClearCart()
      modifies this
      ensures products == D.Empty()
    {
      products := D.Empty();
    }
  }

  // ---------------------------------------------------------------------
  // Order
  // ---------------------------------------------------------------------

  datatype Status = Pending | Completed

  class Order {
    const id: nat
    var products: seq<Product>
    var status: Status
    var payment: Option<Payment>

    /** The status is Completed exactly when a payment is recorded. */
    ghost predicate Valid()
      reads this
    {
      status == Completed <==> payment.Some?
    }

    /** `Order()`: a pending order with no products and no payment. */
    constructor (ids: IdCounters)
      modifies ids`order
      ensures id == old(ids.order) && ids.order == old(ids.order) + 1
      ensures products == [] && status == Pending && payment == None
      ensures Valid()
    {
      id := ids.order;
      products, status, payment := [], Pending, None;
      new;
      ids.order := ids.order + 1;
    }

    /** `self.products.append(product)` */
    method AddProduct(product: Product)
      modifies this`products
      ensures products == old(products) + [product]
    {
      products := products + [product];
    }

    /**
     * Records a new payment of the total price and completes the order.
     * A second call records a further payment in place of the first.
     */
    method ProcessPayment(ids: IdCounters, paymentMethod: string, date: int)
      modifies this`payment, this`status, ids`payment
      ensures payment == Some(Payment(old(ids.payment), Total(products), paymentMethod, date))
      ensures status == Completed && Valid()
      ensures ids.payment == old(ids.payment) + 1
    {
      var totalAmount := Total(products);
      var p := NewPayment(ids, totalAmount, paymentMethod, date);
      payment := Some(p);
      status := Completed;
    }
  }

  // ---------------------------------------------------------------------
  // Customer
  // ---------------------------------------------------------------------

  class Customer {
    const id: nat
    var name: string
    var email: string
    const cart: ShoppingCart
    var orders: map<nat, Order>

    /**
     * What the two setters guarantee of the stored fields. `Create` establishes
     * it and the setters keep it; the object `Blank` returns, before the
     * setters have run, does not satisfy it.
     */
    ghost predicate Valid()
      reads this
    {
      ValidName(name) && ValidEmail(email)
    }

    /** The object `__init__` builds before it runs the two setters. */
    constructor Blank(id: nat)
      ensures this.id == id && name == [] && email == []
      ensures fresh(cart) && cart.products == D.Empty() && orders == map[]
    {
      this.id := id;
      name, email := [], [];
      cart := new ShoppingCart();
      orders := map[];
    }

    /**
     * `Customer(name, email)`: takes the next customer id, then runs the name
     * setter and the email setter, either of which may raise. The counter has
     * moved on even when construction fails.
     */
    static method Create(ids: IdCounters, name: string, email: string)
      returns (r: Result<Customer, Error>)
      modifies ids`customer
      ensures ids.customer == old(ids.customer) + 1
      ensures r.Success? <==> ValidName(name) && ValidEmail(email)
      ensures r.Failure? ==> r.error == if !ValidName(name) then InvalidName else InvalidEmail
      ensures r.Success? ==>
                && fresh(r.value) && fresh(r.value.cart)
                && r.value.id == old(ids.customer)
                && r.value.name == name && r.value.email == email && r.value.Valid()
                && r.value.cart.products == D.Empty() && r.value.orders == map[]
    {
      var c := new Customer.Blank(ids.customer);
      ids.customer := ids.customer + 1;
      var named := c.SetName(name);
      if named.Fail? {
        r := Failure(named.error);
      } else {
        assert c.name == name;
        var addressed := c.SetEmail(email);
        if addressed.Fail? {
          r := Failure(addressed.error);
        } else {
          assert c.name == name && c.email == email;
          r := Success(c);
        }
      }
    }

    /** The name setter: stores `value` unless it is blank after stripping. */
    method SetName(value: string) returns (r: Outcome<Error>)
      modifies this`name
      ensures r == if ValidName(value) then Pass else Fail(InvalidName)
      ensures name == if ValidName(value) then value else old(name)
      ensures old(Valid()) ==> Valid()
    {
      if !ValidName(value) {
        return Fail(InvalidName);
      }
      name := value;
      return Pass;
    }

    /** The email setter: stores `value` unless `valid_email` rejects it. */
    method SetEmail(value: string) returns (r: Outcome<Error>)
      modifies this`email
      ensures r == if ValidEmail(value) then Pass else Fail(InvalidEmail)
      ensures email == if ValidEmail(value) then value else old(email)
      ensures old(Valid()) ==> Valid()
    {
      if !ValidEmail(value) {
        return Fail(InvalidEmail);
      }
      email := value;
      return Pass;
    }

    method AddToCart(product: Product)
      modifies cart
      ensures cart.products == D.Put(old(cart.products), product.id, product)
    {
      cart.AddProduct(product);
    }

    method RemoveFromCart(product: Product) returns (found: bool)
      modifies cart
      ensures found == (product.id in old(cart.products.items))
      ensures cart.products == D.Delete(old(cart.products), product.id)
    {
      found := cart.RemoveProduct(product);
    }
  }

  // ---------------------------------------------------------------------
  // OnlineShoppingSystem
  // ---------------------------------------------------------------------

  class ShoppingSystem {
    var customers: map<nat, Customer>
    var products: map<nat, Product>
    /** The global order log, in the order the orders were processed. */
    var orders: seq<Order>
    /** For each logged order, the id of the customer it was processed for. */
    ghost var owners: seq<nat>

    ghost predicate Valid()
      reads this, customers.Values
    {
      && (forall k :: k in customers ==> customers[k].id == k)
      && (forall k :: k in products ==> products[k].id == k)
      && (forall i, j :: 0 <= i < j < |orders| ==> orders[i].id < orders[j].id)
      && LogInHistories()
    }

    /** Every order in the global log is in its customer's order history. */
    ghost predicate LogInHistories()
      reads this, customers.Values
    {
      && |owners| == |orders|
      && forall i :: 0 <= i < |orders| ==>
           && owners[i] in customers
           && orders[i].id in customers[owners[i]].orders
           && customers[owners[i]].orders[orders[i].id] == orders[i]
    }

    /** Every logged order took its id from `ids` before its current value. */
    ghost predicate Issued(ids: IdCounters)
      reads this, ids
    {
      forall i :: 0 <= i < |orders| ==> orders[i].id < ids.order
    }

    /** The objects `process_order` writes to: the customer and its cart. */
    ghost function Participants(customerId: nat): set<object>
      reads this
    {
      if customerId in customers then {customers[customerId], customers[customerId].cart} else {}
    }

    constructor ()
      ensures customers == map[] && products == map[] && orders == []
      ensures Valid()
    {
      customers, products, orders := map[], map[], [];
      owners := [];
    }

    /** Registers `customer` under its id, unless that id is already registered. */
    method RegisterCustomer(customer: Customer) returns (r: Outcome<Error>)
      requires Valid()
      modifies this`customers
      ensures Valid()
      ensures r == if customer.id in old(customers) then Fail(DuplicateCustomer(customer.id)) else Pass
      ensures customers == if r.Pass? then old(customers)[customer.id := customer] else old(customers)
    {
      if customer.id in customers {
        return Fail(DuplicateCustomer(customer.id));
      }
      customers := customers[customer.id := customer];
      return Pass;
    }

    /** Adds `product` to the catalogue under its id, unless that id is already there. */
    method AddProduct(product: Product) returns (r: Outcome<Error>)
      requires Valid()
      modifies this`products
      ensures Valid()
      ensures r == if product.id in old(products) then Fail(DuplicateProduct(product.id)) else Pass
      ensures products == if r.Pass? then old(products)[product.id := product] else old(products)
    {
      if product.id in products {
        return Fail(DuplicateProduct(product.id));
      }
      products := products[product.id := product];
      return Pass;
    }

    /**
     * The first part of `process_order` after its checks: a new Order
     * receives the cart's products in cart order, is paid, and the cart is
     * cleared.
     */
    method Checkout(ids: IdCounters, customer: Customer, paymentMethod: string, date: int)
      returns (order: Order)
      modifies ids`order, ids`payment, customer.cart
      ensures fresh(order) && order.id == old(ids.order)
      ensures order.products == D.Values(old(customer.cart.products))
      ensures order.status == Completed && order.Valid()
      ensures order.payment ==
                Some(Payment(old(ids.payment), Total(D.Values(old(customer.cart.products))), paymentMethod, date))
      ensures customer.cart.products == D.Empty()
      ensures ids.order == old(ids.order) + 1 && ids.payment == old(ids.payment) + 1
    {
      order := new Order(ids);
      var cartProducts := D.Values(customer.cart.products);
      for i := 0 to |cartProducts|
        invariant order.products == cartProducts[..i]
        modifies order
      {
        order.AddProduct(cartProducts[i]);
      }
      order.ProcessPayment(ids, paymentMethod, date);
      customer.cart.ClearCart();
    }

    /**
     * `customer.orders[order.id] = order` for the registered customer
     * `customerId`: with an id above every logged one, the new entry leaves
     * every logged order in its customer's history.
     */
    method FileOrder(customerId: nat, customer: Customer, order: Order)
      requires Valid() && customerId in customers && customers[customerId] == customer
      requires forall i :: 0 <= i < |orders| ==> orders[i].id < order.id
      modifies customer`orders
      ensures customer.orders == old(customer.orders)[order.id := order]
      ensures Valid()
    {
      customer.orders := customer.orders[order.id := order];
      forall i | 0 <= i < |orders|
        ensures orders[i].id in customers[owners[i]].orders
        ensures customers[owners[i]].orders[orders[i].id] == orders[i]
      {
        var owner := customers[owners[i]];
        if owner == customer {
          assert orders[i].id < order.id;
        }
      }
    }

    /** Appends `order`, already filed in the history of `customerId`, to the global log. */
    method Log(order: Order, customerId: nat)
      requires Valid()
      requires forall i :: 0 <= i < |orders| ==> orders[i].id < order.id
      requires customerId in customers && order.id in customers[customerId].orders
      requires customers[customerId].orders[order.id] == order
      modifies this`orders, this`owners
      ensures orders == old(orders) + [order]
      ensures Valid()
    {
      orders := orders + [order];
      owners := owners + [customerId];
    }

    /**
     * The steps of `process_order` after its checks, for the registered
     * customer `customerId`: checkout, then the new order goes at the end of
     * the global log.
     */
    method PlaceOrder(ids: IdCounters, customerId: nat, customer: Customer, paymentMethod: string, date: int)
      returns (order: Order)
      requires Valid() && Issued(ids)
      requires customerId in customers && customers[customerId] == customer
      modifies this`orders, this`owners, ids`order, ids`payment, customer`orders, customer.cart
      ensures Valid() && Issued(ids)
      ensures orders == old(orders) + [order]
      ensures fresh(order) && order.id == old(ids.order)
      ensures order.products == D.Values(old(customer.cart.products))
      ensures order.status == Completed && order.Valid()
      ensures order.payment ==
                Some(Payment(old(ids.payment), Total(D.Values(old(customer.cart.products))), paymentMethod, date))
      ensures customer.cart.products == D.Empty()
      ensures customer.orders == old(customer.orders)[order.id := order]
      ensures customer.name == old(customer.name) && customer.email == old(customer.email)
      ensures ids.order == old(ids.order) + 1 && ids.payment == old(ids.payment) + 1
    {
      order := Checkout(ids, customer, paymentMethod, date);
      FileOrder(customerId, customer, order);
      Log(order, customerId);
    }

    /**
     * Turns the cart of customer `customerId` into a new paid order: checks
     * that the customer exists and the cart is not empty, copies the cart's
     * products into a new Order in cart order, pays, clears the cart and
     * records the order in the customer's history and in the global log.
     */
    method ProcessOrder(ids: IdCounters, customerId: nat, paymentMethod: string, date: int)
      returns (r: Outcome<Error>)
      requires Valid() && Issued(ids)
      modifies this`orders, this`owners, ids`order, ids`payment, Participants(customerId)
      ensures Valid() && Issued(ids)
      ensures r.Fail? <==> customerId !in customers || old(customers[customerId].cart.products.items) == map[]
      ensures r.Fail? ==> r.error == if customerId !in customers then CustomerNotFound(customerId) else EmptyCart
      ensures r.Fail? ==>
                && orders == old(orders) && unchanged(ids)
                && (customerId in customers ==> unchanged(customers[customerId], customers[customerId].cart))
      ensures r.Pass? ==> |orders| == |old(orders)| + 1 && orders[..|orders| - 1] == old(orders)
      ensures r.Pass? ==>
                var customer := customers[customerId];
                var order := orders[|orders| - 1];
                && fresh(order) && order.id == old(ids.order)
                && order.products == D.Values(old(customer.cart.products))
                && order.status == Completed && order.Valid()
                && order.payment ==
                     Some(Payment(old(ids.payment), Total(D.Values(old(customer.cart.products))), paymentMethod, date))
                && customer.cart.products == D.Empty()
                && customer.orders == old(customer.orders)[order.id := order]
                && customer.name == old(customer.name) && customer.email == old(customer.email)
                && ids.order == old(ids.order) + 1 && ids.payment == old(ids.payment) + 1
    {
      if customerId !in customers {
        return Fail(CustomerNotFound(customerId));
      }
      var customer := customers[customerId];
      if customer.cart.products.items == map[] {
        return Fail(EmptyCart);
      }

      var _ := PlaceOrder(ids, customerId, customer, paymentMethod, date);
      return Pass;
    }
  }
}
