/**
 * The order state of the product page: a quantity counter with a floor of 1,
 * a fixed size label and unit price, the page elements that mirror them, and
 * the order record saved when the customer presses the order button.
 * Amounts are integer cents (9000 is 90.00).
 */
module Order {
  import opened Wrappers
  import opened Decimal

  const InitialQuantity: nat := 1
  const DefaultSize: string := "120ml"
  const UnitPriceCents: nat := 9000

  // ---------------------------------------------------------------
  // Quantity clicks, as values
  // ---------------------------------------------------------------

  datatype Click = Increase | Decrease

  /** The quantity after one click: increase has no ceiling, decrease stops at 1. */
  function Step(q: nat, c: Click): (r: nat)
    ensures q >= 1 ==> r >= 1
    ensures r == q + 1 || r == q - 1 || r == q
    ensures r == q <==> c == Decrease && q <= 1
  {
    match c
    case Increase => q + 1
    case Decrease => if q > 1 then q - 1 else q
  }

  /** The quantity after a whole sequence of clicks, first click first. */
  function Run(q: nat, clicks: seq<Click>): nat
    decreases |clicks|
  {
    if clicks == [] then q else Run(Step(q, clicks[0]), clicks[1..])
  }

  function Count(clicks: seq<Click>, c: Click): nat
    decreases |clicks|
  {
    if clicks == [] then 0 else (if clicks[0] == c then 1 else 0) + Count(clicks[1..], c)
  }

  /** No sequence of clicks takes a quantity of at least 1 below 1. */
  lemma {:induction false} RunKeepsFloor(q: nat, clicks: seq<Click>)
    requires q >= 1
    ensures Run(q, clicks) >= 1
    decreases |clicks|
  {
    if clicks != [] {
      RunKeepsFloor(Step(q, clicks[0]), clicks[1..]);
    }
  }

  /** Each click moves the quantity by at most one, up for an increase and down for a decrease. */
  lemma {:induction false} RunBounds(q: nat, clicks: seq<Click>)
    ensures q - Count(clicks, Decrease) <= Run(q, clicks) <= q + Count(clicks, Increase)
    decreases |clicks|
  {
    if clicks != [] {
      RunBounds(Step(q, clicks[0]), clicks[1..]);
    }
  }

  /** With no decrease clicks the quantity grows by exactly the number of increases. */
  lemma {:induction false} RunOnlyIncreases(q: nat, clicks: seq<Click>)
    requires Count(clicks, Decrease) == 0
    ensures Run(q, clicks) == q + |clicks|
    decreases |clicks|
  {
    if clicks != [] {
      assert clicks[0] == Increase;
      RunOnlyIncreases(q + 1, clicks[1..]);
    }
  }

  // ---------------------------------------------------------------
  // Display targets and the refresh
  // ---------------------------------------------------------------

  /**
   * The four elements the refresh writes to, by id: "quantity", "price",
   * "total" and "order-total". `None` is an element missing from the page;
   * `Some(text)` is a present element and its current text.
   */
  datatype Targets = Targets(
    quantity: Option<string>,
    price: Option<string>,
    total: Option<string>,
    orderTotal: Option<string>)

  const NoTargets: Targets := Targets(None, None, None, None)

  /** Sets the text of a present element; a missing element is skipped. */
  function Write(slot: Option<string>, text: string): (r: Option<string>)
    ensures r.Some? <==> slot.Some?
    ensures r.Some? ==> r.value == text
  {
    if slot.Some? then Some(text) else None
  }

  /** The total, `(price * quantity).toFixed(2)`, with price in cents. */
  function TotalText(price: nat, q: nat): (s: string)
    ensures |s| >= 4 && s[|s| - 3] == '.'
    ensures forall i :: 0 <= i < |s| && i != |s| - 3 ==> IsDigit(s[i])
    ensures ParseCents(s) == Some(price * q)
  {
    FormatCents(price * q)
  }

  /** The page after a refresh from quantity `q` and unit price `price`. */
  function Render(t: Targets, q: nat, price: nat): (r: Targets)
    ensures r.quantity.Some? == t.quantity.Some? && r.price.Some? == t.price.Some?
    ensures r.total.Some? == t.total.Some? && r.orderTotal.Some? == t.orderTotal.Some?
    ensures r.quantity.Some? ==> ParseNat(r.quantity.value) == Some(q)
    ensures r.price.Some? ==> ParseCents(r.price.value) == Some(price)
    ensures r.total.Some? ==> ParseCents(r.total.value) == Some(price * q)
    ensures r.orderTotal.Some? ==> ParseCents(r.orderTotal.value) == Some(price * q)
    ensures r.total.Some? && r.orderTotal.Some? ==> r.total == r.orderTotal
  {
    var total := TotalText(price, q);
    NatRoundTrip(q);
    Targets(
      Write(t.quantity, NatToString(q)),
      Write(t.price, FormatCents(price)),
      Write(t.total, total),
      Write(t.orderTotal, total))
  }

  /** Refreshing an already refreshed page changes nothing. */
  lemma RenderIdempotent(t: Targets, q: nat, price: nat)
    ensures Render(Render(t, q, price), q, price) == Render(t, q, price)
  {
  }

  /** A page without any of the four elements is left as it is. */
  lemma RenderNoTargets(q: nat, price: nat)
    ensures Render(NoTargets, q, price) == NoTargets
  {
  }

  // ---------------------------------------------------------------
  // The saved order
  // ---------------------------------------------------------------

  /** The record saved under the key "order" before going to checkout. */
  datatype OrderRecord = OrderRecord(size: string, quantity: nat, price: nat, total: string)

  function SnapshotOf(size: string, q: nat, price: nat): (o: OrderRecord)
    ensures o.size == size && o.quantity == q && o.price == price
    ensures ParseCents(o.total) == Some(price * q)
  {
    OrderRecord(size, q, price, TotalText(price, q))
  }

  /** The saved total is character for character the total the page shows for the same state. */
  lemma SnapshotAgreesWithDisplay(t: Targets, size: string, q: nat, price: nat)
    requires t.total.Some?
    ensures Render(t, q, price).total == Some(SnapshotOf(size, q, price).total)
  {
  }

  // ---------------------------------------------------------------
  // The page's order state, updated in place
  // ---------------------------------------------------------------

  class OrderState {
    var quantity: nat
    var selectedSize: string
    var price: nat
    var display: Targets

    /** The quantity is at least 1 and every present element shows the current state. */
    ghost predicate Valid()
      reads this
    {
      quantity >= 1 && display == Render(display, quantity, price)
    }

    /** Page load: the initial state, then the first refresh of the page's elements. */
    constructor (page: Targets)
      ensures Valid()
      ensures quantity == InitialQuantity && selectedSize == DefaultSize && price == UnitPriceCents
      ensures display == Render(page, InitialQuantity, UnitPriceCents)
    {
      quantity := InitialQuantity;
      selectedSize := DefaultSize;
      price := UnitPriceCents;
      display := page;
      new;
      Refresh();
    }

    /** Writes quantity, unit price and total into whichever elements are present. */
    method Refresh()
      modifies this
      ensures display == Render(old(display), quantity, price)
      ensures quantity == old(quantity) && selectedSize == old(selectedSize) && price == old(price)
      ensures quantity >= 1 ==> Valid()
    {
      var total := TotalText(price, quantity);
      var shown := display;
      if shown.quantity.Some? { shown := shown.(quantity := Some(NatToString(quantity))); }
      if shown.price.Some? { shown := shown.(price := Some(FormatCents(price))); }
      if shown.total.Some? { shown := shown.(total := Some(total)); }
      if shown.orderTotal.Some? { shown := shown.(orderTotal := Some(total)); }
      display := shown;
      RenderIdempotent(old(display), quantity, price);
    }

    /** The increase button: one more, no ceiling, then a refresh. */
    method Increment()
      requires Valid()
      modifies this
      ensures Valid()
      ensures quantity == Step(old(quantity), Increase) == old(quantity) + 1
      ensures display == Render(old(display), quantity, price)
      ensures selectedSize == old(selectedSize) && price == old(price)
    {
      quantity := quantity + 1;
      Refresh();
    }

    /** The decrease button: one less while above 1, and only then a refresh. */
    method Decrement()
      requires Valid()
      modifies this
      ensures Valid()
      ensures quantity == Step(old(quantity), Decrease)
      ensures old(quantity) > 1 ==> quantity == old(quantity) - 1 && display == Render(old(display), quantity, price)
      ensures old(quantity) == 1 ==> quantity == 1 && display == old(display)
      ensures selectedSize == old(selectedSize) && price == old(price)
    {
      if quantity > 1 {
        quantity := quantity - 1;
        Refresh();
      }
    }

    /** The order button: the record saved for checkout, built from the current state. */
    method PlaceOrder() returns (o: OrderRecord)
      ensures o == SnapshotOf(selectedSize, quantity, price)
      ensures o.size == selectedSize && o.quantity == quantity && o.price == price
      ensures ParseCents(o.total) == Some(price * quantity)
      ensures Valid() && display.total.Some? ==> display.total == Some(o.total)
      ensures Valid() && display.orderTotal.Some? ==> display.orderTotal == Some(o.total)
    {
      o := OrderRecord(selectedSize, quantity, price, TotalText(price, quantity));
    }
  }

  lemma TotalOfFour()
    ensures TotalText(UnitPriceCents, 4) == "360.00"
  {
    assert DigitChar(0) == '0' && DigitChar(3) == '3' && DigitChar(6) == '6';
    assert NatToString(36) == "36";
    assert NatToString(360) == NatToString(36) + "0";
  }

  lemma TotalOfTwo()
    ensures TotalText(UnitPriceCents, 2) == "180.00"
  {
    assert DigitChar(0) == '0' && DigitChar(1) == '1' && DigitChar(8) == '8';
    assert NatToString(18) == "18";
    assert NatToString(180) == NatToString(18) + "0";
  }

  /** Page load, then three increases: quantity 4 and a shown total of "360.00". */
  method ThreeIncreases(page: Targets) returns (shownTotal: Option<string>, q: nat)
    requires page.total.Some?
    ensures q == 4 && shownTotal == Some("360.00")
  {
    var s := new OrderState(page);
    s.Increment();
    s.Increment();
    s.Increment();
    assert s.quantity == 4;
    TotalOfFour();
    q, shownTotal := s.quantity, s.display.total;
  }

  /** Page load, then a decrease: the quantity stays at 1. */
  method DecreaseAtFloor(page: Targets) returns (q: nat, shown: Targets)
    ensures q == 1 && shown == Render(page, 1, UnitPriceCents)
  {
    var s := new OrderState(page);
    s.Decrement();
    q, shown := s.quantity, s.display;
  }

  /** Page load, one increase, then the order button. */
  method OrderTwo(page: Targets) returns (o: OrderRecord)
    ensures o == OrderRecord("120ml", 2, 9000, "180.00")
  {
    var s := new OrderState(page);
    s.Increment();
    assert s.quantity == 2;
    TotalOfTwo();
    o := s.PlaceOrder();
  }
}
