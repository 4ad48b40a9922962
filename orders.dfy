/** Customers, their orders, and the vending machine that takes orders and
    computes discounted invoices. */
module Orders {
  import opened Text
  import opened Items

  /** How `toString` writes one item: a drink as its size, a space and its
      name; any other item as its name. */
  function Render(item: Item): (r: string)
    ensures item.DrinkItem? ==> r == item.size + " " + item.name
    ensures item.SandwichItem? ==> r == item.name
    ensures item.DrinkItem? || item.name != "" ==> r != ""
  {
    match item
    case DrinkItem(_, _, size, _) => size + " " + ItemName(item)
    case SandwichItem(_, _) => ItemName(item)
  }

  /** The rendering of every item, in order. */
  function Renders(items: seq<Item>): seq<string> {
    seq(|items|, i requires 0 <= i < |items| => Render(items[i]))
  }

  /** The separator rule of `toString`: ", " goes before the next rendering
      only when the text built so far is not empty. */
  function Separated(itemList: string): (r: string)
    ensures itemList <= r
    ensures r == "" <==> itemList == ""
  {
    if itemList == "" then itemList else itemList + ", "
  }

  /** The item list that `toString` builds, item by item from the first. It
      ends with the rendering of the last item, so it is at least as long. */
  function ItemList(items: seq<Item>): (r: string)
    ensures items != [] ==> |r| >= |Render(items[|items| - 1])|
    decreases |items|
  {
    if items == [] then ""
    else Separated(ItemList(items[..|items| - 1])) + Render(items[|items| - 1])
  }

  /** The sum of the item prices, from the first item to the last. */
  function OrderTotal(items: seq<Item>): real
    decreases |items|
  {
    if items == [] then 0.0
    else OrderTotal(items[..|items| - 1]) + ItemPrice(items[|items| - 1])
  }

  /** What `generateInvoice` returns for an order: the total, less
      `discountPercentage` per cent. The percentage is never checked. */
  function Invoice(items: seq<Item>, discountPercentage: real): real {
    OrderTotal(items) * (1.0 - discountPercentage / 100.0)
  }

  // ---------------------------------------------------------------------
  // The item list

  /** When the first item does not render as the empty string (a drink, or
      a sandwich with a name), the text built so far is never empty after
      it, so every later item gets its separator: the item list is the
      renderings joined with ", " in order, empty renderings included. */
  lemma {:induction false} ItemListIsJoin(items: seq<Item>)
    requires items != [] ==> Render(items[0]) != ""
    ensures ItemList(items) == Join(Renders(items), ", ")
    ensures items != [] ==> ItemList(items) != ""
    decreases |items|
  {
    var n := |items|;
    if n >= 2 {
      var front := items[..n - 1];
      var last := Render(items[n - 1]);
      assert front[0] == items[0];
      ItemListIsJoin(front);
      assert Renders(items)[..n - 1] == Renders(front);
      assert ItemList(items) == ItemList(front) + ", " + last;
    } else if n == 1 {
      assert items[..0] == [];
    }
  }

  /** An empty rendering at the start of the list, before any non-empty one,
      leaves the text empty, so the separator rule drops the ", " before the
      next item: the item list is not the plain join of the renderings. */
  lemma EmptyNameDropsSeparator()
    ensures ItemList([SandwichItem("", 1.0), SandwichItem("Beef", 6.0)]) == "Beef"
    ensures Join(Renders([SandwichItem("", 1.0), SandwichItem("Beef", 6.0)]), ", ") == ", " + "Beef"
  {
    var items := [SandwichItem("", 1.0), SandwichItem("Beef", 6.0)];
    assert items[..1] == [SandwichItem("", 1.0)] && items[..1][..0] == [];
    assert Renders(items) == ["", "Beef"];
    assert Renders(items)[..1] == [""];
  }

  /** An empty rendering after a non-empty one keeps both of its separators,
      exactly as the plain join does. */
  lemma EmptyNameInMiddleKeepsSeparators()
    ensures ItemList([SandwichItem("A", 1.0), SandwichItem("", 1.0), SandwichItem("B", 1.0)])
      == "A" + ", " + ", " + "B"
  {
    var items := [SandwichItem("A", 1.0), SandwichItem("", 1.0), SandwichItem("B", 1.0)];
    assert items[..2] == [SandwichItem("A", 1.0), SandwichItem("", 1.0)];
    assert items[..2][..1] == [SandwichItem("A", 1.0)] && items[..2][..1][..0] == [];
    assert ItemList(items[..2][..1]) == "A";
    assert ItemList(items[..2]) == "A" + ", ";
  }

  // ---------------------------------------------------------------------
  // Totals and invoices

  /** The total of two orders run one after the other is the sum of their
      totals. */
  lemma {:induction false} OrderTotalAppend(a: seq<Item>, b: seq<Item>)
    ensures OrderTotal(a + b) == OrderTotal(a) + OrderTotal(b)
    decreases |b|
  {
    if b == [] {
      assert a + b == a;
    } else {
      var front := b[..|b| - 1];
      OrderTotalAppend(a, front);
      assert (a + b)[..|a + b| - 1] == a + front;
    }
  }

  /** An order of items with non-negative base prices has a non-negative
      total. */
  lemma {:induction false} OrderTotalNonNegative(items: seq<Item>)
    requires forall i :: 0 <= i < |items| ==> items[i].basePrice >= 0.0
    ensures OrderTotal(items) >= 0.0
    decreases |items|
  {
    if items != [] {
      var n := |items|;
      OrderTotalNonNegative(items[..n - 1]);
    }
  }

  /** No discount gives the raw total. */
  lemma InvoiceWithoutDiscount(items: seq<Item>)
    ensures Invoice(items, 0.0) == OrderTotal(items)
  {
  }

  /** A discount of 100 per cent gives 0. */
  lemma InvoiceFullDiscount(items: seq<Item>)
    ensures Invoice(items, 100.0) == 0.0
  {
  }

  /** A discount of 5 per cent gives 95 per cent of the total. */
  lemma InvoiceFivePercent(items: seq<Item>)
    ensures Invoice(items, 5.0) == OrderTotal(items) * 0.95
  {
  }

  /** Because the percentage is not checked, a negative discount raises a
      non-negative total and a discount above 100 makes a positive total
      negative. */
  lemma InvoiceUncheckedDiscount(items: seq<Item>, discountPercentage: real)
    ensures OrderTotal(items) >= 0.0 && discountPercentage <= 0.0 ==>
      Invoice(items, discountPercentage) >= OrderTotal(items)
    ensures OrderTotal(items) > 0.0 && discountPercentage > 100.0 ==>
      Invoice(items, discountPercentage) < 0.0
  {
    var t, f := OrderTotal(items), 1.0 - discountPercentage / 100.0;
    assert Invoice(items, discountPercentage) == t * f;
    if t >= 0.0 && discountPercentage <= 0.0 {
      assert f >= 1.0;
      assert t * f - t == t * (f - 1.0);
    }
    if t > 0.0 && discountPercentage > 100.0 {
      assert t * -f > 0.0;
    }
  }

  /** One more item extends the item list by the separator rule and its
      rendering, and the total by its price. */
  lemma PrefixStep(items: seq<Item>, i: nat)
    requires i < |items|
    ensures ItemList(items[..i + 1]) == Separated(ItemList(items[..i])) + Render(items[i])
    ensures OrderTotal(items[..i + 1]) == OrderTotal(items[..i]) + ItemPrice(items[i])
  {
    assert items[..i + 1][..i] == items[..i];
  }

  // ---------------------------------------------------------------------
  // The customer

  /** A customer and the items ordered so far. */
  class Customer {
    const name: string
    var orderItems: seq<Item>

    /** A customer with an empty order. */
    constructor (name: string)
      ensures this.name == name && orderItems == []
    {
      this.name := name;
      orderItems := [];
    }

    /** Appends `item` to the order. */
    method AddItem(item: Item)
      modifies this`orderItems
      ensures orderItems == old(orderItems) + [item]
    {
      orderItems := orderItems + [item];
    }

    function GetOrderItems(): seq<Item>
      reads this
    {
      orderItems
    }

    /** `toString`: the item list, the total price, and the text that frames
        them, with `renderTotal` writing the total as a decimal number. */
    method Describe(renderTotal: real -> string) returns (text: string, itemList: string, total: real)
      ensures itemList == ItemList(orderItems)
      ensures total == OrderTotal(orderItems)
      ensures text == "The order for " + name + " is: " + itemList
                      + "\ntotal price: " + renderTotal(total) + " SAR"
    {
      var items := orderItems;
      total := 0.0;
      itemList := "";
      for i := 0 to |items|
        invariant itemList == ItemList(items[..i])
        invariant total == OrderTotal(items[..i])
      {
        PrefixStep(items, i);
        var item := items[i];
        assert total + ItemPrice(item) == OrderTotal(items[..i + 1]);
        if itemList != "" {
          itemList := itemList + ", ";
        }
        if item.DrinkItem? {
          itemList := itemList + (item.size + " " + item.name);
        } else {
          itemList := itemList + item.name;
        }
        total := total + ItemPrice(item);
      }
      assert items[..|items|] == items;
      text := "The order for " + name + " is: " + itemList + "\ntotal price: " + renderTotal(total) + " SAR";
    }
  }

  // ---------------------------------------------------------------------
  // The vending machine

  /** The machine and the registry of customers it has taken orders for. */
  class VendingMachine {
    var customers: seq<Customer>

    /** A machine with an empty registry. */
    constructor ()
      ensures customers == []
    {
      customers := [];
    }

    /** Appends `items`, in order, to the customer's order and then appends
        the customer to the registry, even when already registered. */
    method MakeOrder(customer: Customer, items: seq<Item>)
      modifies this`customers, customer`orderItems
      ensures customer.orderItems == old(customer.orderItems) + items
      ensures customers == old(customers) + [customer]
      ensures forall c :: c in old(customers) ==> old(c.orderItems) <= c.orderItems
    {
      for i := 0 to |items|
        invariant customer.orderItems == old(customer.orderItems) + items[..i]
        invariant customers == old(customers)
      {
        assert items[..i + 1] == items[..i] + [items[i]];
        customer.AddItem(items[i]);
      }
      assert items[..|items|] == items;
      customers := customers + [customer];
    }

    /** Sums the prices of the customer's order and takes off
        `discountPercentage` per cent, whatever its value. */
    method GenerateInvoice(customer: Customer, discountPercentage: real) returns (invoice: real)
      ensures invoice == Invoice(customer.orderItems, discountPercentage)
    {
      var totalPrice := 0.0;
      var items := customer.GetOrderItems();
      for i := 0 to |items|
        invariant totalPrice == OrderTotal(items[..i])
      {
        PrefixStep(items, i);
        assert totalPrice + ItemPrice(items[i]) == OrderTotal(items[..i + 1]);
        totalPrice := totalPrice + ItemPrice(items[i]);
      }
      assert items[..|items|] == items;
      invoice := totalPrice * (1.0 - discountPercentage / 100.0);
    }
  }

  // ---------------------------------------------------------------------
  // The demonstration orders

  /** The first demonstration order, the large latte and a chicken sandwich
      at 5.0, is listed as "large Latte, Chicken". */
  lemma DemoFirstOrderList()
    ensures ItemList([DemoLatte(), SandwichItem("Chicken", 5.0)]) == Large + " " + "Latte" + ", " + "Chicken"
  {
    var latte := DemoLatte();
    var order := [latte, SandwichItem("Chicken", 5.0)];
    assert order[..1] == [latte] && order[..1][..0] == [];
    assert ItemList(order[..1]) == Large + " " + "Latte";
    assert ItemList(order) == ItemList(order[..1]) + ", " + "Chicken";
  }

  /** The first demonstration order is billed 19.0 + 5.0 at no discount. */
  lemma DemoFirstOrderBill()
    ensures Invoice([DemoLatte(), SandwichItem("Chicken", 5.0)], 0.0) == 24.0
  {
    var latte := DemoLatte();
    var order := [latte, SandwichItem("Chicken", 5.0)];
    assert order[..1] == [latte] && order[..1][..0] == [];
    DemoLattePrice();
    assert OrderTotal(order[..1]) == 19.0;
    assert OrderTotal(order) == 24.0;
  }

  /** The second demonstration order: a beef sandwich at 6.0 with a 5 per
      cent discount is billed 5.7. */
  lemma DemoSecondOrder()
    ensures Invoice([SandwichItem("Beef", 6.0)], 5.0) == 5.7
  {
    assert [SandwichItem("Beef", 6.0)][..0] == [];
  }

  /** The two orders of the demonstration program, without its console
      output: a large latte with three add-ons and a chicken sandwich at no
      discount, then a beef sandwich at 5 per cent. */
  method DemoOrders() returns (firstList: string, firstBill: real, secondBill: real)
    ensures firstList == Large + " " + "Latte" + ", " + "Chicken"
    ensures firstBill == 24.0
    ensures secondBill == 5.7
  {
    var machine := new VendingMachine();
    var ali := new Customer("Ali");
    var latte := new Drink("Latte", 14.0);
    var o := latte.SetDrinkSize(Large);
    CanonicalNamesAreLower(Large);
    assert latte.size == Large;
    assert o == Pass;
    o := latte.AddAddOn("vanilla");
    CanonicalNamesAreLower("vanilla");
    assert IsAddOn(Lower("vanilla"));
    assert latte.addOns == ["vanilla"];
    assert o == Pass;
    o := latte.AddAddOn("hazelnut");
    CanonicalNamesAreLower("hazelnut");
    assert IsAddOn(Lower("hazelnut"));
    assert latte.addOns == ["vanilla", "hazelnut"];
    assert o == Pass;
    o := latte.AddAddOn("whipped cream");
    CanonicalNamesAreLower("whipped cream");
    assert IsAddOn(Lower("whipped cream"));
    assert latte.addOns == ["vanilla", "hazelnut", "whipped cream"];
    assert o == Pass;
    var order := [latte.AsItem(), SandwichItem("Chicken", 5.0)];
    machine.MakeOrder(ali, order);
    assert ali.orderItems == order;
    assert latte.AsItem() == DemoLatte();
    DemoFirstOrderList();
    DemoFirstOrderBill();
    firstBill := machine.GenerateInvoice(ali, 0.0);
    var text, firstTotal;
    text, firstList, firstTotal := ali.Describe(_ => "");

    var abdulaziz := new Customer("Abdulaziz");
    machine.MakeOrder(abdulaziz, [SandwichItem("Beef", 6.0)]);
    assert abdulaziz.orderItems == [SandwichItem("Beef", 6.0)];
    DemoSecondOrder();
    secondBill := machine.GenerateInvoice(abdulaziz, 5.0);
  }
}
