/**
 * Orders and the order history, newest first, together with the bookkeeping fact
 * that ties the history to the catalog: every unit missing from a tier's stock is
 * accounted for by exactly one order for that tier.
 */
module Orders {
  import opened Catalog
  import opened Pricing
  import opened Text

  /**
   * One placed order. `id` and `createdAt` are the clock readings taken when it was
   * placed; `priceShown` is the tier's listed price and `finalPrice` the amount due.
   */
  datatype Order = Order(
    id: int,
    pkg: Pkg,
    tier: TierKey,
    fullname: string,
    phone: string,
    recipientPhone: string,
    note: string,
    accountValue: int,
    priceShown: int,
    finalPrice: int,
    createdAt: string)

  /** How many orders in `os` are for tier `t` of package `p`. */
  function CountOf(os: seq<Order>, p: Pkg, t: TierKey): (n: nat)
    ensures n <= |os|
    ensures n == 0 <==> forall i :: 0 <= i < |os| ==> os[i].pkg != p || os[i].tier != t
  {
    if os == [] then 0
    else (if os[0].pkg == p && os[0].tier == t then 1 else 0) + CountOf(os[1..], p, t)
  }

  /** Prepending one order adds one to its own tier's count and nothing to any other. */
  lemma CountOfPrepend(o: Order, os: seq<Order>, p: Pkg, t: TierKey)
    ensures CountOf([o] + os, p, t) == CountOf(os, p, t) + (if o.pkg == p && o.tier == t then 1 else 0)
  {
  }

  /**
   * An order as the storefront records it: a non-blank name and phone, the price its
   * tier is listed at in the catalog `start`, and an amount due given by the pricing rule.
   */
  predicate WellFormedOrder(start: Packages, o: Order) {
    !IsBlank(o.fullname) && !IsBlank(o.phone) &&
    o.priceShown == TierAt(start, o.pkg, o.tier).price &&
    o.finalPrice == FinalPrice(o.pkg, o.accountValue, o.priceShown)
  }

  /** Every order in the history is well formed. */
  predicate WellFormedHistory(start: Packages, os: seq<Order>) {
    forall i :: 0 <= i < |os| ==> WellFormedOrder(start, os[i])
  }

  /** Recording a well-formed order keeps the history well formed. */
  lemma WellFormedHistoryPrepend(start: Packages, o: Order, os: seq<Order>)
    requires WellFormedOrder(start, o) && WellFormedHistory(start, os)
    ensures WellFormedHistory(start, [o] + os)
  {
  }

  /** Each tier's stock plus the orders placed for it equals its stock in the catalog `start`. */
  predicate Conserved(start: Packages, c: Packages, os: seq<Order>) {
    forall p, t {:trigger Stock(c, p, t)} :: Stock(c, p, t) + CountOf(os, p, t) == Stock(start, p, t)
  }

  /**
   * Selling one unit of an in-stock tier and recording the order for it keeps the
   * stock and the history in step.
   */
  lemma ConservedAfterSale(start: Packages, c: Packages, os: seq<Order>, o: Order)
    requires Conserved(start, c, os) && Stock(c, o.pkg, o.tier) > 0
    ensures Conserved(start, Decremented(c, o.pkg, o.tier), [o] + os)
  {
    var d := Decremented(c, o.pkg, o.tier);
    forall p, t
      ensures Stock(d, p, t) + CountOf([o] + os, p, t) == Stock(start, p, t)
    {
      assert Stock(c, p, t) + CountOf(os, p, t) == Stock(start, p, t);
      CountOfPrepend(o, os, p, t);
    }
  }

  /**
   * The storefront's bookkeeping invariant over the catalog `c` and the history `os`,
   * for a session that opened with the catalog `start`: no stock is negative, the
   * listing is that of `start`, every sold unit is matched by one recorded order,
   * and every recorded order was validated and priced by the rule.
   */
  predicate Consistent(start: Packages, c: Packages, os: seq<Order>) {
    StockNonNegative(c) && SameListing(start, c) && Conserved(start, c, os) && WellFormedHistory(start, os)
  }

  /** A session opening on a catalog with no negative stock and no orders is consistent. */
  lemma InitiallyConsistent(start: Packages)
    requires StockNonNegative(start)
    ensures Consistent(start, start, [])
  {
    assert forall p, t :: CountOf([], p, t) == 0;
  }

  /** Recording a validated sale of an in-stock tier keeps the storefront consistent. */
  lemma SaleKeepsConsistent(start: Packages, c: Packages, os: seq<Order>, o: Order)
    requires Consistent(start, c, os) && WellFormedOrder(start, o) && Stock(c, o.pkg, o.tier) > 0
    ensures Consistent(start, Decremented(c, o.pkg, o.tier), [o] + os)
  {
    DecrementedKeepsInvariant(c, o.pkg, o.tier);
    ConservedAfterSale(start, c, os, o);
    WellFormedHistoryPrepend(start, o, os);
  }

  /** No tier is ever oversold: the orders for it never exceed the stock it opened with. */
  lemma NoOversell(start: Packages, c: Packages, os: seq<Order>, p: Pkg, t: TierKey)
    requires Conserved(start, c, os) && StockNonNegative(c)
    ensures CountOf(os, p, t) <= Stock(start, p, t)
  {
    assert Stock(c, p, t) >= 0;
  }
}
