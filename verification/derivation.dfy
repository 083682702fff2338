/** The unit economics both product forms compute while the user types
    (components/product/ProductForm.tsx 115-131 and the older
    components/product/ProductEditForm.tsx 123-126). Every input is a form
    field passed through `Number(x) || 0`, so a missing or unparsable field
    counts as 0; the exchange rate is a parameter (its fetch is not part of
    this model) and counts as 1 unless it is positive. */
module Derivation {
  import opened Common

  /** The form fields the figures are computed from. */
  datatype Inputs = Inputs(
    priceCNY: NumField,
    priceInUA: NumField,
    purchasedCount: NumField,
    sellsCount: NumField,
    shippingUA: NumField,
    managementUAH: NumField)

  /** The figures the create/edit form shows and auto-syncs. */
  datatype Figures = Figures(
    unitCost: real,        // purchase price of one unit, in UAH
    sellingPrice: real,    // sale price of one unit, in UAH
    goodsCost: real,       // all purchased units, without shipping and management
    income: real,          // units sold at the sale price
    expense: real,         // goods cost plus shipping plus management
    potentialProfit: real) // revenue if every purchased unit sells, minus expense

  /** The two figures the older edit form computes. */
  datatype EditFigures = EditFigures(income: real, expense: real)

  /** `rate > 0 ? rate : 1`. */
  function EffectiveRate(rate: real): (r: real)
    ensures r > 0.0
    ensures rate > 0.0 ==> r == rate
    ensures rate <= 0.0 ==> r == 1.0
  {
    if rate > 0.0 then rate else 1.0
  }

  /** The figures of components/product/ProductForm.tsx. */
  function Derive(x: Inputs, rate: real): Figures
  {
    var unitCost := OrZero(x.priceCNY) * EffectiveRate(rate);
    var sellingPrice := OrZero(x.priceInUA);
    var goodsCost := OrZero(x.purchasedCount) * unitCost;
    var income := OrZero(x.sellsCount) * sellingPrice;
    var expense := goodsCost + OrZero(x.shippingUA) + OrZero(x.managementUAH);
    var revenue := OrZero(x.purchasedCount) * sellingPrice;
    Figures(unitCost, sellingPrice, goodsCost, income, expense, revenue - expense)
  }

  /** The older figures of components/product/ProductEditForm.tsx: income and
      the purchase expense only, without shipping or management. */
  function EditDerive(x: Inputs, rate: real): EditFigures
  {
    var purchaseUAH := OrZero(x.priceCNY) * EffectiveRate(rate);
    var sellingUAH := OrZero(x.priceInUA);
    EditFigures(OrZero(x.sellsCount) * sellingUAH, OrZero(x.purchasedCount) * purchaseUAH)
  }

  /** Each field as the computation reads it: a number, with 0 for a missing
      or unparsable one. */
  function AsEntered(x: Inputs): (y: Inputs)
    ensures y.priceCNY.Num? && y.priceInUA.Num? && y.purchasedCount.Num?
    ensures y.sellsCount.Num? && y.shippingUA.Num? && y.managementUAH.Num?
  {
    Inputs(Num(OrZero(x.priceCNY)), Num(OrZero(x.priceInUA)), Num(OrZero(x.purchasedCount)),
           Num(OrZero(x.sellsCount)), Num(OrZero(x.shippingUA)), Num(OrZero(x.managementUAH)))
  }

  // ---------------------------------------------------------------------
  // Properties of the figures.

  /** A missing or unparsable field gives the same figures as a field that
      holds 0. */
  lemma MissingCountsAsZero(x: Inputs, rate: real)
    ensures Derive(AsEntered(x), rate) == Derive(x, rate)
    ensures EditDerive(AsEntered(x), rate) == EditDerive(x, rate)
  {
    var y := AsEntered(x);
    assert OrZero(y.priceCNY) == OrZero(x.priceCNY) && OrZero(y.priceInUA) == OrZero(x.priceInUA);
    assert OrZero(y.purchasedCount) == OrZero(x.purchasedCount) && OrZero(y.sellsCount) == OrZero(x.sellsCount);
    assert OrZero(y.shippingUA) == OrZero(x.shippingUA) && OrZero(y.managementUAH) == OrZero(x.managementUAH);
  }

  /** A rate that is not positive (missing, failed to load, 0) behaves
      exactly as a rate of 1. */
  lemma NonPositiveRateIsOne(x: Inputs, rate: real)
    requires rate <= 0.0
    ensures Derive(x, rate) == Derive(x, 1.0)
    ensures EditDerive(x, rate) == EditDerive(x, 1.0)
  {
    assert EffectiveRate(rate) == 1.0 == EffectiveRate(1.0);
  }

  /** The two forms agree on income; the newer one's expense exceeds the
      older one's by exactly shipping plus management. */
  lemma VariantsDiffer(x: Inputs, rate: real)
    ensures Derive(x, rate).income == EditDerive(x, rate).income
    ensures Derive(x, rate).goodsCost == EditDerive(x, rate).expense
    ensures Derive(x, rate).expense == EditDerive(x, rate).expense + OrZero(x.shippingUA) + OrZero(x.managementUAH)
  {
  }

  /** When every purchased unit has been sold, the projected profit is the
      actual income minus the expense. */
  lemma ProfitWhenSoldOut(x: Inputs, rate: real)
    requires OrZero(x.sellsCount) == OrZero(x.purchasedCount)
    ensures Derive(x, rate).potentialProfit == Derive(x, rate).income - Derive(x, rate).expense
  {
  }

  /** Non-negative fields give non-negative costs, income and expense. */
  lemma NonNegativeFigures(x: Inputs, rate: real)
    requires OrZero(x.priceCNY) >= 0.0 && OrZero(x.priceInUA) >= 0.0
    requires OrZero(x.purchasedCount) >= 0.0 && OrZero(x.sellsCount) >= 0.0
    requires OrZero(x.shippingUA) >= 0.0 && OrZero(x.managementUAH) >= 0.0
    ensures var f := Derive(x, rate);
      f.unitCost >= 0.0 && f.sellingPrice >= 0.0 && f.goodsCost >= 0.0 && f.income >= 0.0
      && f.expense >= f.goodsCost
  {
    var f := Derive(x, rate);
    assert f.unitCost >= 0.0;
    assert f.goodsCost == OrZero(x.purchasedCount) * f.unitCost;
  }

  /** Buying more units, at a non-negative unit cost, never lowers the
      expense. */
  lemma ExpenseMonotoneInPurchased(x: Inputs, rate: real, more: real)
    requires OrZero(x.priceCNY) >= 0.0
    requires more >= OrZero(x.purchasedCount)
    ensures Derive(x.(purchasedCount := Num(more)), rate).expense >= Derive(x, rate).expense
  {
    var u := OrZero(x.priceCNY) * EffectiveRate(rate);
    assert u >= 0.0;
    assert more * u >= OrZero(x.purchasedCount) * u;
  }

  /** The worked example: 10 units bought at 100 CNY with a rate of 5,
      shipping 50, management 20, 6 of them sold at 80 UAH. */
  lemma WorkedExample()
    ensures var f := Derive(Inputs(Num(100.0), Num(80.0), Num(10.0), Num(6.0), Num(50.0), Num(20.0)), 5.0);
      && f.unitCost == 500.0
      && f.goodsCost == 5000.0
      && f.expense == 5070.0
      && f.income == 480.0
      && f.income - f.expense == -4590.0
      && f.potentialProfit == -4270.0
  {
  }
}
