# Online shopping system: a verified model

This is a Dafny model of the in-memory object model in `shoppingSystem.py`, an online shopping system. It covers:

- customers with a validated name and email address;
- products;
- one shopping cart per customer, a dict from product id to product;
- orders and payments;
- the system that registers customers and products and turns a customer's cart into a paid order.

The model has five modules, one per file:

- `wrappers.dfy` (`Wrappers`): `Option`, `Result` and `Outcome`. A method that raises in the source returns `Failure`/`Fail` with an `Error` here.
- `validation.dfy` (`Validation`): `valid_email` and the name check.
  - The email regular expression is written as a recogniser that scans by index.
  - That recogniser is proved equal to a declarative reading of the pattern, including Python's `re.match`/`$` behaviour of also accepting one final newline.
  - `str.strip()` is modelled over a fixed whitespace set.
- `ordered_dict.dfy` (`OrderedDict`): a Python `dict` with natural-number keys. It keeps the keys in insertion order and a map from key to value. This is the cart's store, and its lemmas state the dict behaviour the cart relies on.
- `shop.dfy` (`Shop`): `Product` and `Payment` are datatypes, because the source never changes them after construction.
  - `ShoppingCart`, `Order`, `Customer` and `ShoppingSystem` are classes whose methods update their fields in place.
  - The four class-wide id counters are fields of one `IdCounters` object, passed to every constructor that takes an id.
- `demo.dfy` (`Demo`): the demonstration at the end of the source replayed on the model.
  - Anna pays 120000 + 8000 = 128000 and Karen pays 15000.
  - It also shows concrete accepted and rejected addresses, and what a second payment of one order does.

`ShoppingSystem.Valid()` is the system invariant. It holds that:

- customers and products are stored under their own ids;
- the ids in the global order log are strictly increasing;
- every logged order is in the history of the customer it was made for.

A ghost field `owners` records, for each logged order, which customer that was. `Issued(ids)` says every logged order id was taken from the counter before its current value.

The constructor establishes both invariants. Every operation preserves them, which is why `ProcessOrder` takes them as preconditions.

`Customer.Valid()` says the name passes the name rule and the email passes `valid_email`. Of the two ways to build a customer, only `Customer.Create` establishes it, and both setters keep it. The object `Customer.Blank` returns, before the setters have run, does not satisfy it. `RegisterCustomer` does not require it, just as `register_customer` looks at nothing but the customer's id.

## Model

| member | source | states |
|---|---|---|
| Validation.ValidEmail | shoppingSystem.py:6-7 | `valid_email` accepts exactly the strings that match `local@domain.tld` anchored at both ends, plus those strings followed by one final newline |
| Validation.Recognize | shoppingSystem.py:7 | whatever the hand-written recogniser accepts on a prefix splits as local part, `@`, domain part, `.`, two or more letters |
| Validation.RecognizeCorrect | shoppingSystem.py:7 | the recogniser on a prefix holds if and only if that prefix has such a split |
| Validation.RecognizeSound | shoppingSystem.py:7 | an `@` and a later `.` that pass the recogniser's character and length checks give such a split |
| Validation.RecognizeComplete | shoppingSystem.py:7 | every string with such a split, at any positions of `@` and `.`, is accepted |
| Validation.SliceClasses | shoppingSystem.py:7 | the local part, domain part and top-level label read off a split belong to their character classes and have their minimum lengths exactly when the index scans of the whole string say so |
| Validation.AllInMeans | shoppingSystem.py:7 | the scanning check of a character class holds if and only if every character in the range belongs to the class |
| Validation.FindFirst | shoppingSystem.py:7 | returns the first position of the character in the range, or none if the character is absent |
| Validation.FindLast | shoppingSystem.py:7 | returns the last position of the character in the range, or none if the character is absent |
| Validation.Strip | shoppingSystem.py:73 | the stripped string is a slice of the input outside which every character is whitespace; it is empty if and only if every character is whitespace; otherwise it neither starts nor ends with whitespace |
| Validation.LeadingSpaces | shoppingSystem.py:73 | counts exactly the leading whitespace, and the next character is not whitespace |
| Validation.TrailingSpaces | shoppingSystem.py:73 | counts exactly the trailing whitespace, and the character before it is not whitespace |
| Validation.ValidName | shoppingSystem.py:73 | a name passes the setter's check if and only if it contains a non-whitespace character |
| OrderedDict.Empty | shoppingSystem.py:125 | `{}` has no keys and no entries |
| OrderedDict.Put | shoppingSystem.py:130 | after `d[k] = v` the key maps to the value and every other key keeps its presence and its value |
| OrderedDict.PutNew | shoppingSystem.py:130 | assigning a new key adds that entry and appends its value at the end of the values |
| OrderedDict.PutPresent | shoppingSystem.py:130 | assigning a present key keeps the key order and replaces only that key's value |
| OrderedDict.PutIdempotent | shoppingSystem.py:130 | adding the same product twice leaves the cart as adding it once |
| OrderedDict.PutListsKeyOnce | shoppingSystem.py:130 | after an assignment the key maps to the value and is listed exactly once |
| OrderedDict.Without | shoppingSystem.py:136 | the key list after `del` holds exactly the old keys other than the deleted one, and is the old list when the key was not listed |
| OrderedDict.WithoutCutsOne | shoppingSystem.py:136 | deleting a key from a repetition-free key list cuts out its one occurrence and keeps the list free of repeats |
| OrderedDict.WithoutAt | shoppingSystem.py:136 | the occurrence `del` removes is the one at the key's position; the keys before and after it stay in order |
| OrderedDict.CutKeepsDistinct | shoppingSystem.py:136 | removing one position from a repetition-free key list leaves it repetition-free |
| OrderedDict.Delete | shoppingSystem.py:136 | after `del d[k]` the key is gone and every other key keeps its presence and its value |
| OrderedDict.DeleteAbsent | shoppingSystem.py:133-134 | removing an absent id leaves the dict unchanged |
| OrderedDict.DeletePresent | shoppingSystem.py:135-136 | removing a present id drops exactly that entry, keeps every other entry and its value, and shortens the key list by one |
| OrderedDict.DeleteKeepsOrder | shoppingSystem.py:136 | removing the key listed at a position keeps the keys before and after it in their order |
| OrderedDict.Values | shoppingSystem.py:45 | `values()` lists one value per key, the value of each key in key order; it is empty if and only if the dict is empty |
| OrderedDict.DistinctSize | shoppingSystem.py:45 | a repetition-free key list is as long as the set of its keys |
| Shop.IdCounters.constructor | shoppingSystem.py:57-61 | the customer, product, order and payment counters all start at zero |
| Shop.NewProduct | shoppingSystem.py:107-113 | a product gets the current product counter as its id and the given fields, available unless said otherwise; the counter goes up by one |
| Shop.NewPayment | shoppingSystem.py:184-189 | a payment gets the current payment counter as its id, the amount, the method and the date; the counter goes up by one |
| Shop.Total | shoppingSystem.py:168 | the sum of the prices is non-negative when no price is negative |
| Shop.TotalAppend | shoppingSystem.py:168 | the total of the prices splits over concatenation |
| Shop.TotalBounds | shoppingSystem.py:168 | with no negative prices, the total is no smaller than any one price |
| Shop.ShoppingCart.constructor | shoppingSystem.py:124-125 | a new cart is empty |
| Shop.ShoppingCart.AddProduct | shoppingSystem.py:127-130 | the cart maps the product's id to the product; every other entry is unchanged |
| Shop.ShoppingCart.RemoveProduct | shoppingSystem.py:132-137 | reports whether the id was present; an absent id leaves the cart unchanged; a present id deletes only that entry |
| Shop.ShoppingCart.ClearCart | shoppingSystem.py:147-148 | the cart becomes empty |
| Shop.Order.constructor | shoppingSystem.py:155-160 | a new order takes the current order counter as its id and increments it; it is pending with no products and no payment |
| Shop.Order.AddProduct | shoppingSystem.py:162-165 | the product is appended and the earlier products are kept |
| Shop.Order.ProcessPayment | shoppingSystem.py:167-170 | a new payment of the sum of the prices, with the next payment id, replaces whatever payment was recorded; the status becomes Completed |
| Shop.Customer.Blank | shoppingSystem.py:60-65 | the object under construction has its id, a fresh empty cart and no orders |
| Shop.Customer.Create | shoppingSystem.py:59-65 | the customer counter always goes up by one; construction succeeds if and only if name and email are both valid; the name is checked first; on success the fields are stored unchanged and the cart and history are empty |
| Shop.Customer.SetName | shoppingSystem.py:71-75 | a blank name is refused and leaves the name unchanged; any other name is stored as given; a customer with a valid name and email keeps them valid |
| Shop.Customer.SetEmail | shoppingSystem.py:81-85 | an address `valid_email` rejects is refused and leaves the email unchanged; any other address is stored as given; a customer with a valid name and email keeps them valid |
| Shop.Customer.AddToCart | shoppingSystem.py:87-88 | the cart maps the product's id to the product |
| Shop.Customer.RemoveFromCart | shoppingSystem.py:90-91 | the cart loses the product's id if it had it, and otherwise stays unchanged |
| Shop.ShoppingSystem.constructor | shoppingSystem.py:11-14 | no customers, no products, an empty log, and the invariant holds |
| Shop.ShoppingSystem.RegisterCustomer | shoppingSystem.py:16-20 | a taken id is refused and the registry is unchanged; otherwise exactly that id is added, mapped to the customer; the invariant is kept |
| Shop.ShoppingSystem.AddProduct | shoppingSystem.py:22-26 | a taken id is refused and the catalogue is unchanged; otherwise exactly that id is added, mapped to the product; the invariant is kept |
| Shop.ShoppingSystem.Checkout | shoppingSystem.py:44-50 | the new order takes the next order id, holds the cart's values in cart order, is paid the sum of their prices with the next payment id and is completed; the cart is emptied |
| Shop.ShoppingSystem.FileOrder | shoppingSystem.py:51 | the order is filed under its id in the customer's history, and every logged order stays in its customer's history |
| Shop.ShoppingSystem.Log | shoppingSystem.py:52 | the order is appended to the global log and the invariant is kept |
| Shop.ShoppingSystem.PlaceOrder | shoppingSystem.py:44-52 | checkout, filing in the customer's history and logging together: exactly one new completed and paid order at the end of the log, the cart emptied, the invariant kept |
| Shop.ShoppingSystem.ProcessOrder | shoppingSystem.py:36-53 | refuses an unknown customer, then an empty cart, changing nothing in either case; otherwise appends exactly one new completed order to the log, with the cart's products and their total, empties the cart, files the order in the customer's history, and keeps the invariant that every logged order is in its customer's history |
| Demo.AnnaAddressValid | shoppingSystem.py:202 | `anna@mail.com` is accepted |
| Demo.KarenAddressValid | shoppingSystem.py:203 | `karen@mail.com` is accepted |
| Demo.DemoNamesValid | shoppingSystem.py:202-203 | `Anna` and `Karen` are valid names and a name of only whitespace is not |
| Demo.TrailingNewlineAccepted | shoppingSystem.py:7 | an accepted address followed by a newline is also accepted |
| Demo.MissingTopLevelRejected | shoppingSystem.py:7 | `a@b` is rejected |
| Demo.MissingAtRejected | shoppingSystem.py:7 | `not-an-email` is rejected |
| Demo.ShortTopLevelRejected | shoppingSystem.py:7 | an address whose last label is one letter is rejected |
| Demo.EnrolOne | shoppingSystem.py:202-205 | a valid customer gets the next customer id, keeps its name and address and is registered under that id with an empty cart and no orders |
| Demo.Enrol | shoppingSystem.py:202-205 | two valid customers get consecutive ids and are both registered with empty carts |
| Demo.Stock | shoppingSystem.py:207-212 | the three products get consecutive ids and their prices and are all listed |
| Demo.FillCarts | shoppingSystem.py:217-219 | Anna's cart lists the phone and then the book; Karen's lists the headphones |
| Demo.Register | shoppingSystem.py:200-205 | a new system with customers 0 and 1 registered under their given names and addresses, an empty catalogue, the customer counter at 2 and the product, order and payment counters at zero |
| Demo.Open | shoppingSystem.py:200-212 | the state after registration and stocking: customers 0 and 1 with their names and addresses, the three products under ids 0, 1 and 2, an empty log |
| Demo.SetUp | shoppingSystem.py:200-219 | the state just before the first order: both customers with their names and addresses, the three products in the catalogue, Anna's cart holding the phone and the book, Karen's the headphones, an empty log |
| Demo.DemoSetUp | shoppingSystem.py:200-219 | that state for Anna with `anna@mail.com` and Karen with `karen@mail.com` |
| Demo.AnnaPays | shoppingSystem.py:227-228 | Anna's order takes the next order id, holds the phone and the book, is completed with a payment of 128000 by the given method under the next payment id, is the only logged order and is in Anna's history; her cart is emptied |
| Demo.KarenPays | shoppingSystem.py:230-231 | Karen's order is logged second after the unchanged first one, holds the headphones, is completed with a payment of 15000 under the next payment id and is in Karen's history; her cart is emptied |
| Demo.Refusals | shoppingSystem.py:37-41 | a second order from the emptied cart returns EmptyCart, an order for the unregistered id 7 returns CustomerNotFound(7), and the log, the counters, Anna and her cart are unchanged |
| Demo.AnnaFirst | shoppingSystem.py:200-228 | the demonstration up to Anna's order: order 0 with the phone and the book, paid 128000 by bank transfer as payment 0, in Anna's history; Karen's cart still holds the headphones |
| Demo.BothPay | shoppingSystem.py:200-231 | the demonstration: order 0 as above and order 1 with the headphones, paid 15000 by credit card as payment 1, logged in that order and each in its customer's history; both carts empty |
| Demo.AnnaAndKarenPlaceOrders | shoppingSystem.py:200-231 | the whole demonstration with both paid orders, their payments and histories as above, followed by the two refused orders with their EmptyCart and CustomerNotFound(7) outcomes |
| Demo.PaymentReplaced | shoppingSystem.py:167-170 | paying an order twice keeps only the second payment, and the first payment's id is used up |

## Left out

- Console output (`print`), the `view_products`, `view_cart`, `view_orders` and `view_order_details` methods and the `__str__` formatting of products and payments: they only write to the console.
- `datetime.now()` in `Payment`: the clock reading is a caller-supplied `date: int` parameter.
- Floating-point prices: prices are `int`, so totals are exact sums.
- The `isinstance` checks and their `TypeError` paths, including the name setter's `isinstance(value, str)`: Dafny's static types make them always true.
- Python's regular-expression engine: `valid_email` is modelled by a recogniser proved equal to a declarative reading of its one pattern.
- Validation.Strip: whitespace is the ASCII set that Python's `str.isspace` accepts (code points 9 to 13 and 28 to 32), not the full Unicode set.
- Shop.ShoppingSystem.ProcessOrder: the invariant covers one direction only: every logged order is in its customer's history. The converse does not hold in the source, because a customer object can be registered in two systems and its history then holds orders that only the other system logged.
- Exceptions are modelled as returned `Failure`/`Fail` values. The model has no unwinding. Apart from `Customer` construction, a method that refuses changes nothing, which is what the source does too, since its checks come before its first update. `Customer(name, email)` takes and increments the customer counter before the setters can raise, and `Shop.Customer.Create` keeps that increment on failure.
- The insertion order of `Customer.orders`, `OnlineShoppingSystem.customers` and `OnlineShoppingSystem.products`: these dicts are Dafny `map`s here, so their order is not kept. Only the left-out viewing methods read it. The cart keeps its order, because checkout reads it.
- Concurrency and object lifetime: the source is single-threaded and never deletes anything.
- The model keeps these behaviours of the code as written:
  - Products are not checked for a non-empty name or a non-negative price.
  - A failed `Customer` construction still consumes a customer id.
  - A second `process_payment` call replaces the recorded payment instead of being refused.
