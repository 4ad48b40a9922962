# FoodieCo vending machine, modelled in Dafny

This project models the pricing and ordering core of the FoodieCo vending
machine (`FoodieCoTest.java`). A customer orders priced items: drinks and
sandwiches. A drink has a size (regular, large or super-large) and up to
three add-ons (vanilla, caramel, hazelnut, whipped cream). A sandwich has a
fixed price. The machine appends the items to the customer's order,
registers the customer, and computes an invoice with a percentage discount.

Layout:

- `text.dfy`, module `Text`: ASCII lower-casing, which stands for
  `String.toLowerCase`, and joining strings with a separator.
- `items.dfy`, module `Items`: the error kinds, the size and add-on names,
  the price table and price rules, and the class `Drink`. Its fields `size`
  and `addOns` change in place.
- `orders.dfy`, module `Orders`: the item-list rendering, order totals and
  invoices. It also holds the classes `Customer` (an append-only order) and
  `VendingMachine` (an append-only customer registry).

Prices are Dafny `real`, so all arithmetic is exact. The Java `Item`
hierarchy becomes the datatype `Items.Item`, with a `DrinkItem` and a
`SandwichItem` variant. A `Drink` object enters an order as `AsItem()`: a
value holding its size and add-ons at that moment. An exception becomes an
`Outcome` result (`Pass` or `Fail(error)`). A failed call leaves the state
unchanged.

Each method with a loop is proved against a specification:

- `Drink.GetItemPrice` against `ItemPrice`.
- `Customer.Describe` against `ItemList` and `OrderTotal`.
- `VendingMachine.MakeOrder` against `old(customer.orderItems) + items`.
- `VendingMachine.GenerateInvoice` against `Invoice`.

Lemmas then prove the stated rules about those functions.

Three places where the code does something one might not expect; the model
follows the code:

- An unrecognised size gives its own error, `InvalidSize`, not the
  `InvalidInput` of an unknown add-on. The code throws
  `IllegalArgumentException` (FoodieCoTest.java:73).
- The demonstration latte is set to large, not super-large
  (FoodieCoTest.java:234), and large has no surcharge. It costs 19.0
  (`DemoLattePrice`), and the first order costs 24.0. A super-large latte
  with the same add-ons would cost 14.0 × 1.10 + 5.0 = 20.4
  (`SuperLargeLattePrice`).
- The item list in `toString` is not a plain join with ", ". A separator is
  written only when the text so far is not empty. So an empty rendering (a
  sandwich with an empty name) at the start of the list, before any
  non-empty one, drops the next separator (`EmptyNameDropsSeparator`). An
  empty rendering after a non-empty one keeps its separators
  (`EmptyNameInMiddleKeepsSeparators`). When the first item does not render
  empty, the list is exactly the join (`ItemListIsJoin`).

## Model

| member | source | states |
|---|---|---|
| Text.LowerChar | FoodieCoTest.java:62 | one character of `toLowerCase`: an ASCII upper-case letter moves 32 code points down to its lower-case letter, every other character is kept, and no upper-case letter is left |
| Text.Lower | FoodieCoTest.java:62 | ASCII lower-casing keeps the length, leaves no upper-case letter, and returns an already lower-case string unchanged |
| Text.LowerIdempotent | FoodieCoTest.java:113 | lower-casing an add-on name again, as `getAddOnPrice` does, changes nothing |
| Items.ParseSize | FoodieCoTest.java:61-75 | the size switch accepts exactly the strings whose lower-case form is regular, large or super-large, returns that lower-case form, and otherwise fails with `InvalidSize` |
| Items.ParseSizeIgnoresCase | FoodieCoTest.java:62 | two spellings that lower-case alike give the same result |
| Items.ParseSizeCanonical | FoodieCoTest.java:63-71 | every accepted size is one of the three canonical sizes |
| Items.AddOnStep | FoodieCoTest.java:77-92 | the add-on list after `addAddOn`: a failure is `AddOnLimitExceeded` at three or more add-ons and `InvalidInput` otherwise; a success is the old list with one more element at the end, the lower-cased name, which is a known add-on |
| Items.CanonicalNamesAreLower | FoodieCoTest.java:35-37 | the canonical size and add-on names are their own lower-case form |
| Items.LimitCheckedFirst | FoodieCoTest.java:77-80 | with three or more add-ons, adding any name, even an unknown one, fails with `AddOnLimitExceeded` |
| Items.UnknownAddOnRejected | FoodieCoTest.java:82-91 | below the limit, a name that is not a known add-on in any case fails with `InvalidInput` |
| Items.AddOnAppends | FoodieCoTest.java:77-88 | adding succeeds exactly when below the limit with a known name, and then appends exactly the lower-cased name |
| Items.AddOnStepKeepsInvariant | FoodieCoTest.java:77-92 | a successful add keeps at most three add-ons, each a canonical name |
| Items.AddOnPrice | FoodieCoTest.java:112-126 | an add-on costs between 0 and 2.5, and costs more than 0 exactly when it is a known add-on |
| Items.AddOnRaisesPrice | FoodieCoTest.java:105-107 | a successful add raises the drink's price by exactly that add-on's price |
| Items.SizedPrice | FoodieCoTest.java:96-102 | the base price is kept for every size but super-large, and a non-negative base price is scaled by at most the factor 1.10 |
| Items.AddOnsTotal | FoodieCoTest.java:105-107 | the add-on prices summed in order lie between 0 and 2.5 times the number of add-ons |
| Items.ItemPrice | FoodieCoTest.java:95-110 | the price of a drink (sized base price plus add-ons) or of a sandwich (its base price, :147-149); a non-negative base price gives a non-negative price |
| Items.ItemName | FoodieCoTest.java:128-130 | no contract of its own: `getName` of either variant is the name given at construction (also :151-153) |
| Items.FreshDrinkCostsBase | FoodieCoTest.java:54-59 | a regular drink with no add-ons, as the constructor makes it, costs exactly its base price |
| Items.LargeCostsAsRegular | FoodieCoTest.java:98-102 | a large drink costs the same as a regular drink with the same add-ons |
| Items.SuperLargeSurcharge | FoodieCoTest.java:100-102 | a super-large drink costs its base price times 1.10 plus its add-ons |
| Items.SandwichCostsBase | FoodieCoTest.java:147-149 | a sandwich costs exactly its base price |
| Items.DrinkPriceBounds | FoodieCoTest.java:95-110 | a drink with at most three add-ons costs its sized base price plus between 0 and 7.5 |
| Items.DemoAddOnsTotal | FoodieCoTest.java:235-237 | vanilla, hazelnut and whipped cream together cost 5.0 |
| Items.DemoLattePrice | FoodieCoTest.java:233-237 | the large latte at 14.0 with those three add-ons costs 19.0 |
| Items.SuperLargeLattePrice | FoodieCoTest.java:95-110 | the same latte made super-large costs 20.4 |
| Items.Drink.constructor | FoodieCoTest.java:54-59 | a new drink has the given name and base price, is regular, has no add-ons, and satisfies the drink invariant |
| Items.Drink.AsItem | FoodieCoTest.java:41-44 | no contract of its own: the drink's name, base price, size and add-ons as an order item at this moment |
| Items.Drink.GetName | FoodieCoTest.java:128-130 | no contract of its own: the drink's type as given to the constructor |
| Items.Drink.GetSize | FoodieCoTest.java:132-134 | the size, which on a valid drink is one of the three canonical sizes |
| Items.Drink.GetAddOns | FoodieCoTest.java:136-138 | the add-on list, which on a valid drink holds at most three canonical names |
| Items.Drink.SetDrinkSize | FoodieCoTest.java:61-75 | sets the size to the result of `ParseSize`, or fails with `InvalidSize` and keeps the old size; the invariant is kept |
| Items.Drink.AddAddOn | FoodieCoTest.java:77-92 | reports the outcome of `AddOnStep` on the old list; on success the list is the old list plus the lower-cased name, on failure it is unchanged; the invariant is kept |
| Items.Drink.GetItemPrice | FoodieCoTest.java:95-110 | the loop's result equals `ItemPrice` of the drink: the sized base price plus each add-on's price; on a valid drink it is at most 7.5 above the sized base price |
| Orders.Render | FoodieCoTest.java:183-188 | the first two clauses are the formatting rule itself (a drink as its size, a space and its name, any other item as its name); the property is that a drink or a named sandwich never renders as the empty string |
| Orders.Separated | FoodieCoTest.java:180-181 | the separator rule extends the text so far, and leaves it empty exactly when it was empty |
| Orders.ItemList | FoodieCoTest.java:177-189 | the item list `toString` builds is at least as long as the rendering of the last item, so it is not empty when that rendering is not |
| Orders.ItemListIsJoin | FoodieCoTest.java:179-189 | when the first item does not render as the empty string, the item list is not empty and is the renderings in order joined with ", ", later empty renderings included |
| Orders.EmptyNameDropsSeparator | FoodieCoTest.java:180-181 | an unnamed sandwich followed by "Beef" gives "Beef", while the plain join gives ", Beef" |
| Orders.EmptyNameInMiddleKeepsSeparators | FoodieCoTest.java:180-181 | an unnamed sandwich between "A" and "B" keeps both separators: the list is "A, , B" |
| Orders.OrderTotalAppend | FoodieCoTest.java:215-217 | the total of two orders one after the other is the sum of their totals |
| Orders.OrderTotalNonNegative | FoodieCoTest.java:213-217 | items with non-negative base prices have a non-negative total |
| Orders.PrefixStep | FoodieCoTest.java:179-191 | one more item extends the item list by the separator rule and its rendering, and the total by its price |
| Orders.OrderTotal | FoodieCoTest.java:213-217 | no contract of its own: the item prices summed from first to last; `OrderTotalAppend` and `OrderTotalNonNegative` state its properties |
| Orders.Invoice | FoodieCoTest.java:220 | no contract of its own: the total times (1 - d/100) with d unchecked; the `Invoice…` lemmas below state its properties |
| Orders.InvoiceWithoutDiscount | FoodieCoTest.java:220 | a discount of 0 gives the raw total |
| Orders.InvoiceFullDiscount | FoodieCoTest.java:220 | a discount of 100 gives 0 |
| Orders.InvoiceFivePercent | FoodieCoTest.java:220 | a discount of 5 gives 0.95 times the total |
| Orders.InvoiceUncheckedDiscount | FoodieCoTest.java:212-221 | the discount is not checked: a negative discount raises a non-negative total, and a discount above 100 makes a positive total negative |
| Orders.Customer.constructor | FoodieCoTest.java:161-164 | a new customer has the given name and an empty order |
| Orders.Customer.AddItem | FoodieCoTest.java:166-168 | the order becomes the old order with the item appended |
| Orders.Customer.GetOrderItems | FoodieCoTest.java:170-172 | no contract of its own: the order as it stands |
| Orders.Customer.Describe | FoodieCoTest.java:175-194 | the item list equals `ItemList` of the order, the total equals `OrderTotal`, the same sum the invoice uses, and the text frames them as "The order for ... is: ...\ntotal price: ... SAR" |
| Orders.VendingMachine.constructor | FoodieCoTest.java:201-203 | a new machine has an empty registry |
| Orders.VendingMachine.MakeOrder | FoodieCoTest.java:205-210 | the customer's order becomes the old order followed by the items in order; the registry gains the customer at its end, even when already present; no registered customer loses an item |
| Orders.VendingMachine.GenerateInvoice | FoodieCoTest.java:212-221 | the result equals the sum of the order's item prices times (1 - d/100), for every d |
| Orders.DemoFirstOrderList | FoodieCoTest.java:242-246 | the first demonstration order is listed as "large Latte, Chicken" |
| Orders.DemoFirstOrderBill | FoodieCoTest.java:246-248 | the first demonstration order is billed 24.0 at no discount |
| Orders.DemoSecondOrder | FoodieCoTest.java:256-262 | a beef sandwich at 6.0 with a 5 per cent discount is billed 5.7 |
| Orders.DemoOrders | FoodieCoTest.java:229-269 | running the two demonstration orders through the classes gives "large Latte, Chicken", 24.0 and 5.7; its body asserts that every size and add-on call passes, so the `catch` at :267-269 is never reached |

## Left out

- The console output of the demonstration program (`System.out.println`,
  `printStackTrace`). `DemoOrders` keeps only its computations.
- IEEE-754 double rounding. Prices are exact reals, so, for example,
  14.0 * 1.10 is exactly 15.4 here.
- Customer.Describe: it does not model how `Double.toString` writes the
  total. The rendering is a parameter, `renderTotal`.
- The two exception classes and their messages. They become the `Error`
  kinds `InvalidSize`, `InvalidInput` and `AddOnLimitExceeded`.
- Locale-dependent and non-ASCII behaviour of `String.toLowerCase`. Only
  ASCII letters are folded.
- Reference aliasing. In Java, a `Drink` changed after it joins an order
  also changes that order, and `getOrderItems` and `getAddOns` return the
  live lists. Here an order holds item values, and the getters return
  values.
- The `PriceableItem` interface and the abstract `Item` class. They become
  the datatype `Item`, with `ItemPrice` and `ItemName` dispatching on the
  variant.
- Null arguments. Java would throw `NullPointerException` on a null size or
  add-on string; Dafny strings are never null.
