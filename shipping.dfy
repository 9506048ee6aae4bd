/** The shipping step (`Shipping.tsx`): the orders shown newest id first, the
 *  delivery headings, the one-line shipping address, and the handlers of the
 *  contact row, the Change/Back/Continue links and the per-order shipping radios.
 */
module Shipping {
  import opened Wrappers
  import opened Strings
  import opened Store
  import opened AddressText

  // ---------------------------------------------------------------- display order

  predicate SortedByIdDesc(s: seq<Order>)
  {
    forall i, j :: 0 <= i < j < |s| ==> s[i].id >= s[j].id
  }

  /** The orders of `s` whose id is k, in their order in `s`. */
  function WithId(s: seq<Order>, k: int): seq<Order>
  {
    if s == [] then [] else (if s[0].id == k then [s[0]] else []) + WithId(s[1..], k)
  }

  /** Places o ahead of the first order whose id is not larger, so that o stays ahead of equal ids. */
  function InsertById(o: Order, s: seq<Order>): seq<Order>
  {
    if s == [] || s[0].id <= o.id then [o] + s else [s[0]] + InsertById(o, s[1..])
  }

  /** Inserting adds exactly o. */
  lemma {:induction false} InsertByIdMultiset(o: Order, s: seq<Order>)
    ensures multiset(InsertById(o, s)) == multiset(s) + multiset{o}
  {
    if s != [] && s[0].id > o.id {
      InsertByIdMultiset(o, s[1..]);
      assert s == [s[0]] + s[1..];
    }
  }

  /** Inserting into a list sorted by descending id keeps it sorted. */
  lemma {:induction false} InsertByIdSorted(o: Order, s: seq<Order>)
    requires SortedByIdDesc(s)
    ensures SortedByIdDesc(InsertById(o, s))
  {
    if s == [] || s[0].id <= o.id {
      ConsSorted(o, s);
    } else {
      var t := InsertById(o, s[1..]);
      InsertByIdSorted(o, s[1..]);
      InsertByIdMultiset(o, s[1..]);
      forall y | y in t
        ensures y.id <= s[0].id
      {
        assert y in multiset(t);
        if y != o {
          assert y in multiset(s[1..]);
          var j :| 0 <= j < |s[1..]| && s[1..][j] == y;
          assert y == s[j + 1];
        }
      }
      ConsSorted(s[0], t);
    }
  }

  lemma ConsSorted(x: Order, t: seq<Order>)
    requires SortedByIdDesc(t)
    requires forall y :: y in t ==> y.id <= x.id
    ensures SortedByIdDesc([x] + t)
  {
    var r := [x] + t;
    forall i, j | 0 <= i < j < |r|
      ensures r[i].id >= r[j].id
    {
      assert r[j] == t[j - 1];
      if i > 0 { assert r[i] == t[i - 1]; }
    }
  }

  lemma {:induction false} InsertByIdWithId(o: Order, s: seq<Order>, k: int)
    ensures WithId(InsertById(o, s), k) == if o.id == k then [o] + WithId(s, k) else WithId(s, k)
  {
    if s == [] || s[0].id <= o.id {
      assert ([o] + s)[1..] == s;
    } else {
      var r := InsertById(o, s);
      InsertByIdWithId(o, s[1..], k);
      assert r[1..] == InsertById(o, s[1..]);
      if o.id == k {
        assert s[0].id != k;
      }
    }
  }

  /** The comparator `(a, b) => parseInt(b.id) - parseFloat(a.id)` under a stable sort, on a copy. */
  function SortByIdDesc(s: seq<Order>): (r: seq<Order>)
    ensures SortedByIdDesc(r)
    ensures multiset(r) == multiset(s)
    ensures |r| == |s|
  {
    if s == [] then []
    else
      var t := SortByIdDesc(s[1..]);
      InsertByIdSorted(s[0], t);
      InsertByIdMultiset(s[0], t);
      assert s == [s[0]] + s[1..];
      InsertById(s[0], t)
  }

  /** The sort is stable: orders sharing an id keep their relative order. */
  lemma {:induction false} SortByIdDescStable(s: seq<Order>, k: int)
    ensures WithId(SortByIdDesc(s), k) == WithId(s, k)
  {
    if s != [] {
      SortByIdDescStable(s[1..], k);
      InsertByIdWithId(s[0], SortByIdDesc(s[1..]), k);
      assert SortByIdDesc(s) == InsertById(s[0], SortByIdDesc(s[1..]));
    }
  }

  /** A heading of the order list; the total is the literal 2 whatever the number of orders. */
  function DeliveryHeading(index: nat): string
  {
    "Delivery " + DecimalString(index + 1) + " of 2"
  }

  function ItemLabel(index: nat): string
  {
    "Item " + DecimalString(index + 1)
  }

  datatype DeliveryBlock = DeliveryBlock(order: Order, heading: string, itemLabel: string)

  /** The orders of a list of blocks, in block order. */
  function BlockOrders(bs: seq<DeliveryBlock>): (os: seq<Order>)
    ensures |os| == |bs| && forall i :: 0 <= i < |bs| ==> os[i] == bs[i].order
  {
    seq(|bs|, i requires 0 <= i < |bs| => bs[i].order)
  }

  /** The blocks rendered for `orders`: the sorted copy, each labelled with its place in it. */
  function DeliveryBlocks(orders: seq<Order>): (bs: seq<DeliveryBlock>)
    ensures |bs| == |orders|
    ensures BlockOrders(bs) == SortByIdDesc(orders)
    ensures multiset(BlockOrders(bs)) == multiset(orders)
    ensures forall i, j :: 0 <= i < j < |bs| ==> bs[i].order.id >= bs[j].order.id
    ensures forall i :: 0 <= i < |bs| ==> bs[i].heading == DeliveryHeading(i) && bs[i].itemLabel == ItemLabel(i)
  {
    var sorted := SortByIdDesc(orders);
    var bs := seq(|sorted|, i requires 0 <= i < |sorted| => DeliveryBlock(sorted[i], DeliveryHeading(i), ItemLabel(i)));
    assert BlockOrders(bs) == sorted;
    bs
  }

  /** Orders sharing an id are numbered in the order they have in `orders`. */
  lemma DeliveryBlocksStable(orders: seq<Order>, k: int)
    ensures WithId(BlockOrders(DeliveryBlocks(orders)), k) == WithId(orders, k)
  {
    SortByIdDescStable(orders, k);
  }

  /** The number in the i-th heading reads back as i + 1, and the heading always ends in " of 2". */
  lemma DeliveryHeadingNumber(index: nat)
    ensures var n := DecimalString(index + 1);
      DeliveryHeading(index) == "Delivery " + n + " of 2" && AllDigits(n) && n[0] != '0' && DecimalValue(n) == index + 1
  {
    DecimalRoundTrip(index + 1);
  }

  /** With three orders the last heading still claims a total of two. */
  lemma ThirdDeliveryHeading()
    ensures DeliveryHeading(2) == "Delivery 3 of 2"
  {
  }

  /** A radio of an order is checked exactly when its value is the order's shipping method. */
  predicate ShippingRadioChecked(order: Order, value: string)
  {
    order.shipping == value
  }

  /** With `shipping` standard or express, exactly one of an order's two radios is checked;
   *  with any other value neither is. */
  lemma OneShippingRadioChecked(order: Order)
    ensures order.shipping == "standard" || order.shipping == "express"
      <==> ShippingRadioChecked(order, "standard") != ShippingRadioChecked(order, "express")
  {
  }

  // ---------------------------------------------------------------- address line

  /** The shipping row: apartment, address and province, each comma-tagged, then country. */
  function ShippingLine(a: Address): string
  {
    Tagged(a.apartment) + " " + Tagged(a.address) + " " + Tagged(a.province) + " " + a.country
  }

  /** The city never reaches the shipping row. */
  lemma ShippingLineIgnoresCity(a: Address, city: string)
    ensures ShippingLine(a.(city := city)) == ShippingLine(a)
  {
  }

  /** Reads the shipping row back into apartment, address, province and country. */
  function ReadShippingLine(line: string): Option<(string, string, string, string)>
  {
    match ReadSlot(line)
    case None => None
    case Some((apartment, r1)) =>
      match ReadSlot(r1)
      case None => None
      case Some((address, r2)) =>
        match ReadSlot(r2)
        case None => None
        case Some((province, country)) => Some((apartment, address, province, country))
  }

  /** The row keeps apartment, address, province and country, in that order, and marks exactly
   *  the non-empty ones with a comma: it reads back to them whenever the values hold no comma. */
  lemma ShippingLineRoundTrip(a: Address)
    requires Readable(a.apartment) && Readable(a.address) && Readable(a.province)
    ensures ReadShippingLine(ShippingLine(a)) == Some((a.apartment, a.address, a.province, a.country))
  {
    var tail2 := Tagged(a.province) + " " + a.country;
    var tail1 := Tagged(a.address) + " " + tail2;
    assert ShippingLine(a) == Tagged(a.apartment) + " " + tail1;
    ReadSlotTagged(a.apartment, tail1);
    ReadSlotTagged(a.address, tail2);
    ReadSlotTagged(a.province, a.country);
  }

  /** Conversely, every line the reader accepts is the shipping row of what it reads, whatever the city. */
  lemma ReadShippingLineSound(line: string, apartment: string, address: string, province: string, country: string, city: string)
    requires ReadShippingLine(line) == Some((apartment, address, province, country))
    ensures Readable(apartment) && Readable(address) && Readable(province)
    ensures line == ShippingLine(Address(address, apartment, city, province, country))
  {
    var r1 := ReadSlot(line).value.1;
    var r2 := ReadSlot(r1).value.1;
    ReadSlotParts(line, apartment, r1);
    ReadSlotParts(r1, address, r2);
    ReadSlotParts(r2, province, country);
    ShippingLineNested(Address(address, apartment, city, province, country));
  }

  lemma ShippingLineNested(a: Address)
    ensures ShippingLine(a) == Tagged(a.apartment) + " " + (Tagged(a.address) + " " + (Tagged(a.province) + " " + a.country))
  {
  }

  // ---------------------------------------------------------------- the component

  class ShippingForm {
    // read from the store: `shipping.email`
    var email: string
    // the component's own state
    var focused: bool
    // requests issued so far, oldest first
    var requests: seq<Action>

    /** Mounting: the effect seeds the shipping email from the contact information. */
    constructor (storedEmail: string, contactEmail: string)
      ensures email == storedEmail && !focused
      ensures requests == [SetEmail(contactEmail)]
    {
      email := storedEmail;
      focused := false;
      requests := [SetEmail(contactEmail)];
    }

    /** The contact row shows an input only while `focused`. */
    predicate EmailEditable()
      reads this
    {
      focused
    }

    /** A re-render with a new `shipping.email`. */
    method StoreChanged(storedEmail: string)
      modifies this
      ensures email == storedEmail && focused == old(focused) && requests == old(requests)
    {
      email := storedEmail;
    }

    /** The contact row's Change link opens the email for editing. */
    method ChangeContact()
      modifies this
      ensures EmailEditable()
      ensures email == old(email) && requests == old(requests)
    {
      focused := true;
    }

    /** Leaving the email input, which exists only while it is editable, closes it. */
    method BlurEmail()
      requires EmailEditable()
      modifies this
      ensures !EmailEditable()
      ensures email == old(email) && requests == old(requests)
    {
      focused := false;
    }

    /** An edit in the email input, which exists only while it is editable. */
    method EditEmail(value: string)
      requires EmailEditable()
      modifies this
      ensures requests == old(requests) + [SetEmail(value)]
      ensures email == old(email) && focused == old(focused)
    {
      requests := requests + [SetEmail(value)];
    }

    method EditInstructions(value: string)
      modifies this
      ensures requests == old(requests) + [SetInstructions(value)]
      ensures email == old(email) && focused == old(focused)
    {
      requests := requests + [SetInstructions(value)];
    }

    /** The shipping row's Change link asks for the customer step, in the `{ stage }` shape. */
    method ChangeAddress()
      modifies this
      ensures requests == old(requests) + [SetCheckoutStage(Wrapped("customer"))]
      ensures email == old(email) && focused == old(focused)
    {
      requests := requests + [SetCheckoutStage(Wrapped("customer"))];
    }

    method Back()
      modifies this
      ensures requests == old(requests) + [SetCheckoutStage(Wrapped("customer"))]
      ensures email == old(email) && focused == old(focused)
    {
      requests := requests + [SetCheckoutStage(Wrapped("customer"))];
    }

    method Continue()
      modifies this
      ensures requests == old(requests) + [SetCheckoutStage(Wrapped("payment"))]
      ensures email == old(email) && focused == old(focused)
    {
      requests := requests + [SetCheckoutStage(Wrapped("payment"))];
    }

    /** Choosing a shipping radio of an order sends that same order with the chosen method. */
    method SelectShipping(order: Order, value: string)
      requires value == "standard" || value == "express"
      modifies this
      ensures requests == old(requests) + [ChangeShipping(value, order)]
      ensures email == old(email) && focused == old(focused)
    {
      requests := requests + [ChangeShipping(value, order)];
    }
  }
}
