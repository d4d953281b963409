/**
 * The storefront's state and its transitions: the catalog, the current selection,
 * the order form and the order history, updated by placing an order, selecting a
 * tier, clearing the form and editing its fields.
 */
module Storefront {
  import opened Catalog
  import opened Pricing
  import opened Text
  import opened Orders

  /** What an attempt to place an order comes to; the two rejections leave the state untouched. */
  datatype PlaceResult = OutOfStock | MissingField | Placed(order: Order)

  /**
   * The order form: the buyer's name and phone, the recipient's phone, a free note
   * and the declared account value (already read as a whole number of VND).
   */
  datatype Form = Form(fullname: string, phone: string, recipientPhone: string, note: string, accountValue: int)

  /** The form as the page first shows it and as placing an order or "clear" leaves it. */
  const EmptyForm := Form("", "", "", "", 0)

  class Shop {
    var packages: Packages
    var selectedPackage: Pkg
    var selectedTier: TierKey
    var form: Form
    var orders: seq<Order>
    /** The catalog the session opened with. */
    ghost const start: Packages

    /**
     * The storefront's invariant: no stock is negative, the listing never changes,
     * every sold unit is matched by one recorded order, and every recorded order was
     * validated and priced by the rule.
     */
    ghost predicate Valid()
      reads this
    {
      Consistent(start, packages, orders)
    }

    constructor ()
      ensures Valid()
      ensures start == InitialPackages() && packages == start && orders == []
      ensures selectedPackage == P25 && selectedTier == Early
      ensures form == EmptyForm
    {
      packages := InitialPackages();
      start := packages;
      selectedPackage, selectedTier := P25, Early;
      form := EmptyForm;
      orders := [];
      InitiallyConsistent(InitialPackages());
    }

    /**
     * Submits the order form. An exhausted tier is refused first, then a blank name
     * or phone; a refusal changes nothing. A successful order is priced by the rule,
     * takes one unit from the selected tier, goes to the front of the history and
     * empties the form, keeping the selection. `now` and `createdAt` are the clock
     * readings used for the order's id and timestamp.
     */
    method PlaceOrder(now: int, createdAt: string) returns (r: PlaceResult)
      requires Valid()
      modifies this
      ensures Valid()
      ensures old(Stock(packages, selectedPackage, selectedTier)) <= 0 ==> r == OutOfStock
      ensures old(Stock(packages, selectedPackage, selectedTier)) > 0 && (old(IsBlank(form.fullname)) || old(IsBlank(form.phone))) ==>
                r == MissingField
      ensures r.Placed? <==>
                old(Stock(packages, selectedPackage, selectedTier)) > 0 && !old(IsBlank(form.fullname)) && !old(IsBlank(form.phone))
      ensures !r.Placed? ==> unchanged(this)
      ensures r.Placed? ==>
                r.order == Order(now, old(selectedPackage), old(selectedTier), old(form.fullname), old(form.phone),
                                 old(form.recipientPhone), old(form.note), old(form.accountValue),
                                 old(TierAt(packages, selectedPackage, selectedTier).price),
                                 FinalPrice(old(selectedPackage), old(form.accountValue),
                                            old(TierAt(packages, selectedPackage, selectedTier).price)),
                                 createdAt)
      ensures r.Placed? ==>
                packages == Decremented(old(packages), old(selectedPackage), old(selectedTier)) &&
                orders == [r.order] + old(orders) &&
                selectedPackage == old(selectedPackage) && selectedTier == old(selectedTier) &&
                form == EmptyForm
    {
      var tier := TierAt(packages, selectedPackage, selectedTier);
      TrimEmptyIffBlank(form.fullname);
      TrimEmptyIffBlank(form.phone);
      if tier.stock <= 0 {
        r := OutOfStock;
      } else if Trim(form.fullname) == [] || Trim(form.phone) == [] {
        r := MissingField;
      } else {
        var finalPrice := FinalPrice(selectedPackage, form.accountValue, tier.price);
        var newOrder := Order(now, selectedPackage, selectedTier, form.fullname, form.phone, form.recipientPhone,
                              form.note, form.accountValue, tier.price, finalPrice, createdAt);
        SaleKeepsConsistent(start, packages, orders, newOrder);
        packages, orders := Decremented(packages, selectedPackage, selectedTier), [newOrder] + orders;
        form := EmptyForm;
        r := Placed(newOrder);
      }
    }

    /**
     * The "choose" button of tier `t` in package `p`: disabled while that tier is out
     * of stock, otherwise it makes (p, t) the selection and changes nothing else.
     */
    method Select(p: Pkg, t: TierKey) returns (enabled: bool)
      requires Valid()
      modifies this`selectedPackage, this`selectedTier
      ensures Valid()
      ensures enabled <==> Stock(packages, p, t) > 0
      ensures enabled ==> selectedPackage == p && selectedTier == t
      ensures !enabled ==> selectedPackage == old(selectedPackage) && selectedTier == old(selectedTier)
    {
      enabled := Stock(packages, p, t) > 0;
      if enabled {
        selectedPackage, selectedTier := p, t;
      }
    }

    /** The "clear" button: empties the form, leaving catalog, history and selection alone. */
    method Clear()
      requires Valid()
      modifies this`form
      ensures Valid() && form == EmptyForm
    {
      form := EmptyForm;
    }

    /** Typing in the name field. */
    method SetFullname(v: string)
      requires Valid()
      modifies this`form
      ensures Valid() && form == old(form).(fullname := v)
    {
      form := form.(fullname := v);
    }

    /** Typing in the phone field. */
    method SetPhone(v: string)
      requires Valid()
      modifies this`form
      ensures Valid() && form == old(form).(phone := v)
    {
      form := form.(phone := v);
    }

    /** Typing in the recipient phone field. */
    method SetRecipientPhone(v: string)
      requires Valid()
      modifies this`form
      ensures Valid() && form == old(form).(recipientPhone := v)
    {
      form := form.(recipientPhone := v);
    }

    /** Typing in the account value field, already read as a whole number of VND. */
    method SetAccountValue(v: int)
      requires Valid()
      modifies this`form
      ensures Valid() && form == old(form).(accountValue := v)
    {
      form := form.(accountValue := v);
    }

    /** Typing in the note field. */
    method SetNote(v: string)
      requires Valid()
      modifies this`form
      ensures Valid() && form == old(form).(note := v)
    {
      form := form.(note := v);
    }
  }

  /**
   * A session that buys tier "vip" of package "50" (initial stock 10) declaring an
   * account value of 10,000,000 VND: the order is listed at 989,000 VND, is due 0 VND,
   * leaves 9 units, and is the whole history.
   */
  method FiftyVipSession() returns (o: Order, stockLeft: int, history: seq<Order>)
    ensures o.pkg == P50 && o.tier == Vip && o.fullname == "Nguyen A"
    ensures o.priceShown == 989000 && o.finalPrice == 0
    ensures stockLeft == 9 && history == [o]
  {
    var shop := new Shop();
    assert Stock(shop.packages, P50, Vip) == 10;
    var enabled := shop.Select(P50, Vip);
    shop.SetFullname("Nguyen A");
    shop.SetPhone("0834000000");
    shop.SetAccountValue(10_000_000);
    assert !IsWhitespace(shop.form.fullname[0]) && !IsWhitespace(shop.form.phone[0]);
    var r := shop.PlaceOrder(1, "2025-01-01T00:00:00.000Z");
    o := r.order;
    stockLeft := Stock(shop.packages, P50, Vip);
    history := shop.orders;
  }
}
