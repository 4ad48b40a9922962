/** The priced items of the FoodieCo vending machine: error kinds, drink sizes
    and add-ons, the price rules, and the mutable `Drink`. */
module Items {
  import opened Text

  /** The three failures a drink mutation can report. `InvalidSize` stands
      for the `IllegalArgumentException` of `setDrinkSize`; the other two
      are the program's two checked exceptions. */
  datatype Error = InvalidSize | InvalidInput | AddOnLimitExceeded

  /** The value of a pure step, or the error it fails with. */
  datatype Result<+T> = Success(value: T) | Failure(error: Error) {
    /** Drops the value, keeping only whether the step succeeded. */
    function ToOutcome(): Outcome {
      match this
      case Success(_) => Pass
      case Failure(e) => Fail(e)
    }
  }

  /** What a mutating method reports in place of throwing. */
  datatype Outcome = Pass | Fail(error: Error)

  const Regular: string := "regular"
  const Large: string := "large"
  const SuperLarge: string := "super-large"

  const MaxAddOns: nat := 3

  const VanillaPrice: real := 1.5
  const CaramelPrice: real := 2.0
  const HazelnutPrice: real := 2.5
  const WhippedCreamPrice: real := 1.0

  /** Price factor of a super-large drink; a large drink has none. */
  const SuperLargeFactor: real := 1.10

  /** The canonical drink sizes. */
  predicate IsSize(s: string) {
    s == Regular || s == Large || s == SuperLarge
  }

  /** The canonical (lower-case) add-on names. */
  predicate IsAddOn(a: string) {
    a == "vanilla" || a == "caramel" || a == "hazelnut" || a == "whipped cream"
  }

  /** An item as the order holds it. A `DrinkItem` carries the drink's size
      and add-ons as they were when it was added to the order. */
  datatype Item =
    | DrinkItem(name: string, basePrice: real, size: string, addOns: seq<string>)
    | SandwichItem(name: string, basePrice: real)

  /** The switch of `setDrinkSize`: the size named by `s` in any letter case. */
  function ParseSize(s: string): (r: Result<string>)
    ensures r.Success? <==> IsSize(Lower(s))
    ensures r.Success? ==> r.value == Lower(s)
    ensures r.Failure? ==> r.error == InvalidSize
  {
    var l := Lower(s);
    if l == Regular then Success(Regular)
    else if l == Large then Success(Large)
    else if l == SuperLarge then Success(SuperLarge)
    else Failure(InvalidSize)
  }

  /** The add-on list after `addAddOn(a)` on a drink holding `addOns`: the
      limit is checked first, then the name, and the lower-cased name is
      appended. */
  function AddOnStep(addOns: seq<string>, a: string): (r: Result<seq<string>>)
    ensures r.Failure? ==> r.error == if |addOns| >= MaxAddOns then AddOnLimitExceeded else InvalidInput
    ensures r.Success? ==> |r.value| == |addOns| + 1 && r.value[..|addOns|] == addOns
    ensures r.Success? ==> r.value[|addOns|] == Lower(a) && IsAddOn(r.value[|addOns|])
  {
    if |addOns| >= MaxAddOns then Failure(AddOnLimitExceeded)
    else if IsAddOn(Lower(a)) then Success(addOns + [Lower(a)])
    else Failure(InvalidInput)
  }

  /** The price table of `getAddOnPrice`; an unknown name costs nothing. */
  function AddOnPrice(a: string): (r: real)
    ensures 0.0 <= r <= HazelnutPrice
    ensures r > 0.0 <==> IsAddOn(Lower(a))
  {
    var l := Lower(a);
    if l == "vanilla" then VanillaPrice
    else if l == "caramel" then CaramelPrice
    else if l == "hazelnut" then HazelnutPrice
    else if l == "whipped cream" then WhippedCreamPrice
    else 0.0
  }

  /** The base price after the size rule of `getItemPrice`: unchanged
      except for a super-large drink, and never below a non-negative base
      price nor above it times the factor. */
  function SizedPrice(basePrice: real, size: string): (r: real)
    ensures size != SuperLarge ==> r == basePrice
    ensures basePrice >= 0.0 ==> basePrice <= r <= basePrice * SuperLargeFactor
  {
    if size == Large then basePrice
    else if size == SuperLarge then basePrice * SuperLargeFactor
    else basePrice
  }

  /** The add-on prices summed from the first add-on to the last; the sum
      lies between 0 and 2.5 per add-on. */
  function AddOnsTotal(addOns: seq<string>): (r: real)
    ensures 0.0 <= r <= HazelnutPrice * |addOns| as real
    decreases |addOns|
  {
    if addOns == [] then 0.0
    else AddOnsTotal(addOns[..|addOns| - 1]) + AddOnPrice(addOns[|addOns| - 1])
  }

  /** `getItemPrice` of a drink or a sandwich; an item with a non-negative
      base price has a non-negative price. */
  function ItemPrice(item: Item): (r: real)
    ensures item.basePrice >= 0.0 ==> r >= 0.0
  {
    match item
    case DrinkItem(_, basePrice, size, addOns) => SizedPrice(basePrice, size) + AddOnsTotal(addOns)
    case SandwichItem(_, basePrice) => basePrice
  }

  /** `getName` of a drink or a sandwich. */
  function ItemName(item: Item): string {
    item.name
  }

  // ---------------------------------------------------------------------
  // Sizes

  /** The canonical size and add-on names are already lower case, so the
      drink stores them as they are spelt. */
  lemma CanonicalNamesAreLower(a: string)
    requires IsSize(a) || IsAddOn(a)
    ensures Lower(a) == a
  {
  }

  /** Setting the size ignores letter case: spellings that lower-case alike
      have the same effect. */
  lemma ParseSizeIgnoresCase(s: string, t: string)
    requires Lower(s) == Lower(t)
    ensures ParseSize(s) == ParseSize(t)
  {
  }

  /** Every accepted spelling yields one of the three canonical sizes. */
  lemma ParseSizeCanonical(s: string)
    ensures ParseSize(s).Success? ==> IsSize(ParseSize(s).value)
  {
  }

  // ---------------------------------------------------------------------
  // Add-ons

  /** A drink with three or more add-ons refuses any further add-on with
      the limit error, whether or not the name is a known add-on. */
  lemma LimitCheckedFirst(addOns: seq<string>, a: string)
    requires |addOns| >= MaxAddOns
    ensures AddOnStep(addOns, a) == Failure(AddOnLimitExceeded)
  {
  }

  /** Below the limit, an unknown name fails with `InvalidInput`. */
  lemma UnknownAddOnRejected(addOns: seq<string>, a: string)
    requires |addOns| < MaxAddOns && !IsAddOn(Lower(a))
    ensures AddOnStep(addOns, a) == Failure(InvalidInput)
  {
  }

  /** A successful step appends exactly the lower-cased name. */
  lemma AddOnAppends(addOns: seq<string>, a: string)
    ensures AddOnStep(addOns, a).Success? <==> |addOns| < MaxAddOns && IsAddOn(Lower(a))
    ensures AddOnStep(addOns, a).Success? ==> AddOnStep(addOns, a).value == addOns + [Lower(a)]
  {
  }

  /** The add-on invariant of a drink: at most three add-ons, each of them a
      canonical add-on name. */
  predicate ValidAddOns(addOns: seq<string>) {
    |addOns| <= MaxAddOns && forall i :: 0 <= i < |addOns| ==> IsAddOn(addOns[i])
  }

  /** A successful step keeps the add-on invariant. */
  lemma AddOnStepKeepsInvariant(addOns: seq<string>, a: string)
    requires ValidAddOns(addOns)
    ensures AddOnStep(addOns, a).Success? ==> ValidAddOns(AddOnStep(addOns, a).value)
  {
  }

  /** Adding an add-on raises the price of the drink by exactly that
      add-on's price. */
  lemma AddOnRaisesPrice(name: string, basePrice: real, size: string, addOns: seq<string>, a: string)
    requires AddOnStep(addOns, a).Success?
    ensures ItemPrice(DrinkItem(name, basePrice, size, AddOnStep(addOns, a).value))
         == ItemPrice(DrinkItem(name, basePrice, size, addOns)) + AddOnPrice(a)
  {
    var t := addOns + [Lower(a)];
    assert t[..|t| - 1] == addOns;
    LowerIdempotent(a);
  }

  // ---------------------------------------------------------------------
  // Prices

  /** A drink made by the constructor (regular, no add-ons) costs exactly
      its base price. */
  lemma FreshDrinkCostsBase(name: string, basePrice: real)
    ensures ItemPrice(DrinkItem(name, basePrice, Regular, [])) == basePrice
  {
  }

  /** A large drink costs the same as a regular one. */
  lemma LargeCostsAsRegular(name: string, basePrice: real, addOns: seq<string>)
    ensures ItemPrice(DrinkItem(name, basePrice, Large, addOns))
         == ItemPrice(DrinkItem(name, basePrice, Regular, addOns))
  {
  }

  /** A super-large drink costs its base price times 1.10 plus its add-ons. */
  lemma SuperLargeSurcharge(name: string, basePrice: real, addOns: seq<string>)
    ensures ItemPrice(DrinkItem(name, basePrice, SuperLarge, addOns))
         == basePrice * 1.10 + AddOnsTotal(addOns)
  {
  }

  /** A sandwich costs exactly its base price. */
  lemma SandwichCostsBase(name: string, basePrice: real)
    ensures ItemPrice(SandwichItem(name, basePrice)) == basePrice
  {
  }

  /** A drink with at most three add-ons costs its sized base price plus
      between 0 and 7.5. */
  lemma DrinkPriceBounds(item: Item)
    requires item.DrinkItem? && |item.addOns| <= MaxAddOns
    ensures SizedPrice(item.basePrice, item.size) <= ItemPrice(item)
                                                 <= SizedPrice(item.basePrice, item.size) + 7.5
  {
    assert HazelnutPrice * |item.addOns| as real <= 7.5;
  }

  /** The add-ons of the demonstration latte cost 1.5 + 2.5 + 1.0. */
  lemma DemoAddOnsTotal()
    ensures AddOnsTotal(["vanilla", "hazelnut", "whipped cream"]) == 5.0
  {
    var a := ["vanilla", "hazelnut", "whipped cream"];
    assert a[..2] == ["vanilla", "hazelnut"] && a[..2][..1] == ["vanilla"];
    assert AddOnPrice("vanilla") == 1.5;
    assert AddOnPrice("hazelnut") == 2.5;
    assert AddOnPrice("whipped cream") == 1.0;
    assert AddOnsTotal(a[..2][..1]) == 1.5;
    assert AddOnsTotal(a[..2]) == 4.0;
  }

  /** The drink of the demonstration order: a large latte at 14.0 with
      vanilla, hazelnut and whipped cream. */
  function DemoLatte(): Item {
    DrinkItem("Latte", 14.0, Large, ["vanilla", "hazelnut", "whipped cream"])
  }

  /** The demonstration latte costs 14.0 + 1.5 + 2.5 + 1.0. */
  lemma DemoLattePrice()
    ensures ItemPrice(DemoLatte()) == 19.0
  {
    DemoAddOnsTotal();
  }

  /** The same latte made super-large costs 15.4 + 5.0. */
  lemma SuperLargeLattePrice()
    ensures ItemPrice(DrinkItem("Latte", 14.0, SuperLarge, ["vanilla", "hazelnut", "whipped cream"])) == 20.4
  {
    DemoAddOnsTotal();
  }

  // ---------------------------------------------------------------------
  // The mutable drink

  /** A drink whose size and add-on list change in place. */
  class Drink {
    const name: string
    const basePrice: real
    var size: string
    var addOns: seq<string>

    /** The drink's invariant: a canonical size and a valid add-on list. */
    ghost predicate Valid()
      reads this
    {
      IsSize(size) && ValidAddOns(addOns)
    }

    /** A regular drink with no add-ons. */
    constructor (name: string, basePrice: real)
      ensures Valid()
      ensures this.name == name && this.basePrice == basePrice
      ensures size == Regular && addOns == []
    {
      this.name := name;
      this.basePrice := basePrice;
      size := Regular;
      addOns := [];
    }

    /** The drink as an order item, with its current size and add-ons. */
    function AsItem(): Item
      reads this
    {
      DrinkItem(name, basePrice, size, addOns)
    }

    function GetName(): string
      reads this
    {
      name
    }

    /** The size, one of the three canonical sizes on a valid drink. */
    function GetSize(): (r: string)
      reads this
      ensures Valid() ==> IsSize(r)
    {
      size
    }

    /** The add-ons, at most three canonical names on a valid drink. */
    function GetAddOns(): (r: seq<string>)
      reads this
      ensures Valid() ==> ValidAddOns(r)
    {
      addOns
    }

    /** Sets the size named by `s` in any letter case; any other string
        fails with `InvalidSize` and keeps the size. */
    method SetDrinkSize(s: string) returns (outcome: Outcome)
      requires Valid()
      modifies this`size
      ensures Valid()
      ensures outcome == ParseSize(s).ToOutcome()
      ensures size == if ParseSize(s).Success? then ParseSize(s).value else old(size)
    {
      var l := Lower(s);
      if l == Regular {
        size := Regular;
        outcome := Pass;
      } else if l == Large {
        size := Large;
        outcome := Pass;
      } else if l == SuperLarge {
        size := SuperLarge;
        outcome := Pass;
      } else {
        outcome := Fail(InvalidSize);
      }
    }

    /** Appends the lower-cased add-on `a`, failing first on the limit and
        then on an unknown name; a failure keeps the list. */
    method AddAddOn(a: string) returns (outcome: Outcome)
      requires Valid()
      modifies this`addOns
      ensures Valid()
      ensures outcome == AddOnStep(old(addOns), a).ToOutcome()
      ensures addOns == if outcome.Pass? then AddOnStep(old(addOns), a).value else old(addOns)
    {
      if |addOns| >= MaxAddOns {
        return Fail(AddOnLimitExceeded);
      }
      var l := Lower(a);
      if l == "vanilla" || l == "caramel" || l == "hazelnut" || l == "whipped cream" {
        addOns := addOns + [l];
        outcome := Pass;
      } else {
        outcome := Fail(InvalidInput);
      }
    }

    /** The base price, scaled for a super-large drink, plus each add-on's
        price in turn. */
    method GetItemPrice() returns (price: real)
      ensures price == ItemPrice(AsItem())
      ensures Valid() ==> SizedPrice(basePrice, size) <= price <= SizedPrice(basePrice, size) + 7.5
    {
      price := basePrice;
      if size == Large {
      } else if size == SuperLarge {
        price := price * SuperLargeFactor;
      }
      for i := 0 to |addOns|
        invariant price == SizedPrice(basePrice, size) + AddOnsTotal(addOns[..i])
      {
        assert addOns[..i + 1][..i] == addOns[..i];
        price := price + AddOnPrice(addOns[i]);
      }
      assert addOns[..|addOns|] == addOns;
      if Valid() {
        DrinkPriceBounds(AsItem());
      }
    }
  }
}
