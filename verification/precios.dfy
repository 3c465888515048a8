/**
 * The price derivation of `Producto.save`: from how a product is bought (unit, box or bag),
 * the package price, the purchase discount and the profit margin, it derives the unit purchase
 * cost and the suggested sale price. Prices are reals: quotients are exact, without the rounding of
 * the `Decimal` context or the two decimal places the derived columns are stored with.
 */
module Precios {
  import opened Outcomes

  /** `Producto.TIPO_COMPRA`: unit 'U', box 'C' or bag 'B'. */
  datatype PurchaseType = ByUnit | ByBox | ByBag

  /** `Producto.TIPO_VENTA`: unit 'U' or promotion 'P'. */
  datatype SaleType = UnitSale | Promotion

  function PurchaseCode(t: PurchaseType): char {
    match t
    case ByUnit => 'U'
    case ByBox => 'C'
    case ByBag => 'B'
  }

  /** The purchase type a stored code denotes; only 'U', 'C' and 'B' are valid choices. */
  function ParsePurchaseType(c: char): (r: Option<PurchaseType>)
    ensures r.Some? <==> c in {'U', 'C', 'B'}
    ensures r.Some? ==> PurchaseCode(r.value) == c
  {
    if c == 'U' then Some(ByUnit) else if c == 'C' then Some(ByBox) else if c == 'B' then Some(ByBag) else None
  }

  /**
   * The pricing fields of a product. `unitCost` and `suggestedPrice` are derived; `finalPrice` is
   * entered by the operator and may differ from the suggestion.
   */
  datatype Product = Product(
    purchaseType: PurchaseType,
    unitsPerPackage: Option<nat>,
    packagePrice: real,
    discount: real,
    unitCost: real,
    saleType: SaleType,
    margin: real,
    suggestedPrice: real,
    finalPrice: real)

  /** Why the derivation cannot run: a box or bag price divided by a missing or zero unit count. */
  datatype PricingError = MissingUnitCount | ZeroUnitCount

  /** The price of one unit before the discount. */
  function BasePrice(p: Product): (r: Result<real, PricingError>)
    ensures p.purchaseType == ByUnit ==> r == Ok(p.packagePrice)
    ensures p.purchaseType != ByUnit ==>
      && (r == Err(MissingUnitCount) <==> p.unitsPerPackage.None?)
      && (r == Err(ZeroUnitCount) <==> p.unitsPerPackage == Some(0))
      && (r.Ok? ==> r.value * (p.unitsPerPackage.value as real) == p.packagePrice)
  {
    match p.purchaseType
    case ByUnit => Ok(p.packagePrice)
    case _ =>
      match p.unitsPerPackage
      case None => Err(MissingUnitCount)
      case Some(n) => if n == 0 then Err(ZeroUnitCount) else Ok(p.packagePrice / (n as real))
  }

  /** The unit cost after the purchase discount; a zero discount is skipped. */
  function DiscountedCost(base: real, discount: real): (cost: real)
    ensures cost == base * (1.0 - discount / 100.0)
  {
    if discount != 0.0 then base * (1.0 - discount / 100.0) else base
  }

  /** `Producto.save`: recompute both derived prices from the current inputs; nothing else changes. */
  function Save(p: Product): (r: Result<Product, PricingError>)
    ensures r.Ok? <==> BasePrice(p).Ok?
    ensures r.Err? ==> r.error == BasePrice(p).error
    ensures r.Ok? ==>
      && r.value.unitCost == BasePrice(p).value * (1.0 - p.discount / 100.0)
      && r.value.suggestedPrice == r.value.unitCost * (1.0 + p.margin / 100.0)
      && r.value == p.(unitCost := r.value.unitCost, suggestedPrice := r.value.suggestedPrice)
  {
    match BasePrice(p)
    case Err(e) => Err(e)
    case Ok(base) =>
      var cost := DiscountedCost(base, p.discount);
      Ok(p.(unitCost := cost, suggestedPrice := cost * (1.0 + p.margin / 100.0)))
  }

  /**
   * With a non-negative base price, a discount between 0 and 100 percent and a non-negative margin,
   * the unit cost lies between 0 and the base price and the suggested price is at least the unit cost.
   */
  lemma PricesAreOrdered(p: Product)
    requires Save(p).Ok?
    requires BasePrice(p).value >= 0.0
    requires 0.0 <= p.discount <= 100.0 && p.margin >= 0.0
    ensures 0.0 <= Save(p).value.unitCost <= BasePrice(p).value
    ensures Save(p).value.suggestedPrice >= Save(p).value.unitCost
  {
  }

  /** The derived prices depend only on the inputs: saving again changes nothing. */
  lemma SaveIsIdempotent(p: Product)
    requires Save(p).Ok?
    ensures Save(Save(p).value) == Save(p)
  {
    var q := Save(p).value;
    assert BasePrice(q) == BasePrice(p);
    assert Save(q).value.unitCost == q.unitCost;
    assert Save(q).value.suggestedPrice == q.suggestedPrice;
  }

  /** A package price that is not negative gives a base price that is not negative. */
  lemma BasePriceNonNegative(p: Product)
    requires BasePrice(p).Ok? && p.packagePrice >= 0.0
    ensures BasePrice(p).value >= 0.0
  {
  }

  /** Stale derived values and the final sale price never influence what is derived. */
  lemma SaveIgnoresDerivedFields(p: Product, q: Product)
    requires p.(unitCost := 0.0, suggestedPrice := 0.0, finalPrice := 0.0)
          == q.(unitCost := 0.0, suggestedPrice := 0.0, finalPrice := 0.0)
    ensures Save(p).Ok? <==> Save(q).Ok?
    ensures Save(p).Ok? ==>
      && Save(p).value.unitCost == Save(q).value.unitCost
      && Save(p).value.suggestedPrice == Save(q).value.suggestedPrice
      && Save(p).value.finalPrice == p.finalPrice
  {
  }
}
