/**
 * The storefront's catalog: four voucher packages, each offering three purchase
 * tiers with a listed price (whole VND) and a remaining stock count.
 */
module Catalog {

  /** Package identifiers; the storefront keys them by the strings "25", "50", "100", "200". */
  datatype Pkg = P25 | P50 | P100 | P200

  /** Tier identifiers; the storefront keys them by "early", "normal", "vip". */
  datatype TierKey = Early | Normal | Vip

  /** `name` is the tier's display label (`label` is a keyword in Dafny). */
  datatype Tier = Tier(name: string, price: int, stock: int)

  /** The three tiers of one package, one field per tier key. */
  datatype Tiers = Tiers(early: Tier, normal: Tier, vip: Tier) {
    function Get(t: TierKey): Tier {
      match t
      case Early => early
      case Normal => normal
      case Vip => vip
    }

    function Set(t: TierKey, tier: Tier): (r: Tiers)
      ensures r.Get(t) == tier
      ensures forall u :: u != t ==> r.Get(u) == Get(u)
    {
      match t
      case Early => this.(early := tier)
      case Normal => this.(normal := tier)
      case Vip => this.(vip := tier)
    }
  }

  datatype Package = Package(title: string, note: string, tiers: Tiers)

  /** The whole catalog, one field per package key. */
  datatype Packages = Packages(p25: Package, p50: Package, p100: Package, p200: Package) {
    function Get(p: Pkg): Package {
      match p
      case P25 => p25
      case P50 => p50
      case P100 => p100
      case P200 => p200
    }

    function Set(p: Pkg, pk: Package): (r: Packages)
      ensures r.Get(p) == pk
      ensures forall q :: q != p ==> r.Get(q) == Get(q)
    {
      match p
      case P25 => this.(p25 := pk)
      case P50 => this.(p50 := pk)
      case P100 => this.(p100 := pk)
      case P200 => this.(p200 := pk)
    }
  }

  /** The object key under which the storefront stores a package: its nominal value in millions of VND. */
  function Key(p: Pkg): (k: string)
    ensures |k| > 0
    ensures forall i :: 0 <= i < |k| ==> '0' <= k[i] <= '9'
  {
    match p
    case P25 => "25"
    case P50 => "50"
    case P100 => "100"
    case P200 => "200"
  }

  /** Distinct packages have distinct keys, so the enumeration can stand for the string keys. */
  lemma KeyInjective(p: Pkg, q: Pkg)
    ensures Key(p) == Key(q) ==> p == q
  {
  }

  /** Math.max on integers. */
  function Max(a: int, b: int): (m: int)
    ensures m >= a && m >= b && (m == a || m == b)
  {
    if a >= b then a else b
  }

  function TierAt(c: Packages, p: Pkg, t: TierKey): Tier
  {
    c.Get(p).tiers.Get(t)
  }

  function Stock(c: Packages, p: Pkg, t: TierKey): int
  {
    TierAt(c, p, t).stock
  }

  /** The catalog invariant: no tier has a negative stock. */
  predicate StockNonNegative(c: Packages)
  {
    forall p, t :: Stock(c, p, t) >= 0
  }

  function Title(p: Pkg): string {
    match p
    case P25 => "Voucher MB - 25,000,000 VND"
    case P50 => "Voucher MB - 50,000,000 VND"
    case P100 => "Voucher MB - 100,000,000 VND"
    case P200 => "Voucher MB - 200,000,000 VND"
  }

  function Note(p: Pkg): string {
    match p
    case P25 => "Số tài khoản MB phải dưới 25,000,000 VND"
    case P50 => "Số tài khoản MB phải dưới 50,000,000 VND"
    case P100 => "Số tài khoản MB phải dưới 100,000,000 VND"
    case P200 => "Số tài khoản MB phải dưới 200,000,000 VND"
  }

  function Label(t: TierKey): string {
    match t
    case Early => "Early-bird"
    case Normal => "Giá thường"
    case Vip => "VIP (chọn 2 số)"
  }

  /** The price and stock table the storefront starts from. */
  function InitialTier(p: Pkg, t: TierKey): (r: Tier)
    ensures r.name == Label(t) && r.price > 0 && r.stock > 0
  {
    match (p, t)
    case (P25, Early) => Tier(Label(t), 199000, 50)
    case (P25, Normal) => Tier(Label(t), 249000, 100)
    case (P25, Vip) => Tier(Label(t), 349000, 10)
    case (P50, Early) => Tier(Label(t), 589000, 40)
    case (P50, Normal) => Tier(Label(t), 689000, 80)
    case (P50, Vip) => Tier(Label(t), 989000, 10)
    case (P100, Early) => Tier(Label(t), 1679000, 30)
    case (P100, Normal) => Tier(Label(t), 1779000, 60)
    case (P100, Vip) => Tier(Label(t), 2679000, 10)
    case (P200, Early) => Tier(Label(t), 3669000, 10)
    case (P200, Normal) => Tier(Label(t), 4069000, 20)
    case (P200, Vip) => Tier(Label(t), 6669000, 5)
  }

  function InitialPackage(p: Pkg): Package {
    Package(Title(p), Note(p), Tiers(InitialTier(p, Early), InitialTier(p, Normal), InitialTier(p, Vip)))
  }

  /** The catalog as the storefront first shows it. */
  function InitialPackages(): (c: Packages)
    ensures StockNonNegative(c)
    ensures forall p, t {:trigger TierAt(c, p, t)} :: TierAt(c, p, t) == InitialTier(p, t)
  {
    Packages(InitialPackage(P25), InitialPackage(P50), InitialPackage(P100), InitialPackage(P200))
  }

  /**
   * `c` lists what `start` lists: the same titles, notes, labels and prices, whatever
   * the stock counts. A sale changes nothing else in the catalog.
   */
  predicate SameListing(start: Packages, c: Packages)
  {
    (forall p {:trigger c.Get(p)} :: c.Get(p).title == start.Get(p).title && c.Get(p).note == start.Get(p).note) &&
    (forall p, t {:trigger TierAt(c, p, t)} ::
       TierAt(c, p, t).name == TierAt(start, p, t).name && TierAt(c, p, t).price == TierAt(start, p, t).price)
  }

  /**
   * The catalog after one unit of tier `t` of package `p` is sold: that tier's stock
   * becomes max(0, stock - 1) and nothing else changes.
   */
  function Decremented(c: Packages, p: Pkg, t: TierKey): (d: Packages)
    ensures TierAt(d, p, t) == TierAt(c, p, t).(stock := Max(0, Stock(c, p, t) - 1))
    ensures Stock(c, p, t) > 0 ==> Stock(d, p, t) == Stock(c, p, t) - 1
    ensures forall q, u :: q != p || u != t ==> TierAt(d, q, u) == TierAt(c, q, u)
    ensures forall q :: d.Get(q).title == c.Get(q).title && d.Get(q).note == c.Get(q).note
  {
    var pk := c.Get(p);
    var tier := pk.tiers.Get(t);
    c.Set(p, pk.(tiers := pk.tiers.Set(t, tier.(stock := Max(0, tier.stock - 1)))))
  }

  /** A sale keeps the catalog invariant and the listing: stock stays non-negative, labels and prices stay put. */
  lemma DecrementedKeepsInvariant(c: Packages, p: Pkg, t: TierKey)
    ensures StockNonNegative(c) ==> StockNonNegative(Decremented(c, p, t))
    ensures forall start :: SameListing(start, c) ==> SameListing(start, Decremented(c, p, t))
  {
    var d := Decremented(c, p, t);
    assert forall q, u :: Stock(d, q, u) == if q == p && u == t then Max(0, Stock(c, p, t) - 1) else Stock(c, q, u);
  }

  /** The catalog after `n` successive sales of tier `t` of package `p`. */
  function DecrementedTimes(c: Packages, p: Pkg, t: TierKey, n: nat): (d: Packages)
  {
    if n == 0 then c else Decremented(DecrementedTimes(c, p, t, n - 1), p, t)
  }

  /**
   * After `n` sales of one tier its stock is max(0, stock - n), never negative,
   * and every other tier is as it was.
   */
  lemma {:induction false} DecrementedTimesStock(c: Packages, p: Pkg, t: TierKey, n: nat)
    requires Stock(c, p, t) >= 0
    ensures Stock(DecrementedTimes(c, p, t, n), p, t) == Max(0, Stock(c, p, t) - n)
    ensures forall q, u :: q != p || u != t ==> TierAt(DecrementedTimes(c, p, t, n), q, u) == TierAt(c, q, u)
  {
    if n > 0 {
      DecrementedTimesStock(c, p, t, n - 1);
      var s := Stock(c, p, t);
      assert Max(0, Max(0, s - (n - 1)) - 1) == Max(0, s - n);
    }
  }
}
