/** The state of the product forms: the values they start from
    (ProductForm.tsx 38-67, ProductEditForm.tsx 42-75) and the auto-sync
    rule that overwrites the income and expense rows with the computed
    figures (ProductForm.tsx 135-168, ProductEditForm.tsx 128-154). The
    auto-sync effects are modelled as plain transitions of the form state;
    when React runs them is not part of this model. */
module FormState {
  import opened Common
  import opened Rounding
  import opened Images
  import opened LineItemSync
  import opened Derivation

  /** The category the auto-synced expense row carries. */
  const PurchaseType: string := "Закупка"

  /** What an expense row holds besides its id. */
  datatype ExpenseLine = ExpenseLine(amount: NumField, kind: string)

  /** Income and expense records as the server returns them with a product. */
  datatype StoredIncome = StoredIncome(id: Id, amount: NumField)
  datatype StoredExpense = StoredExpense(id: Id, amount: NumField, kind: string)

  /** The boolean feature flags of the older edit form. */
  datatype Flags = Flags(
    workModalWindowIOS: bool, soundReducer: bool, sensesOfEar: bool,
    wirelessCharger: bool, gyroscope: bool)

  /** A stored product as a form receives it (`initialData`); `None` stands
      for a missing or null property. */
  datatype InitialData = InitialData(
    name: Option<string>,
    images: ImagesInput,
    olxUrl: Option<string>,
    pinduoduoUrl: Option<string>,
    priceCNY: NumField,
    priceUAH: NumField,
    shippingUA: NumField,
    managementUAH: NumField,
    weight: NumField,
    sellsCount: NumField,
    purchasedCount: NumField,
    chip: Option<string>,
    priceInUA: NumField,
    workModalWindowIOS: Option<bool>,
    soundReducer: Option<bool>,
    sensesOfEar: Option<bool>,
    wirelessCharger: Option<bool>,
    gyroscope: Option<bool>,
    incomes: Option<seq<StoredIncome>>,
    expenses: Option<seq<StoredExpense>>)

  /** The form values. `flags` is `None` in ProductForm.tsx, which has no
      flag fields. */
  datatype FormValues = FormValues(
    name: string,
    images: seq<string>,
    olxUrl: string,
    pinduoduoUrl: string,
    priceCNY: NumField,
    shippingUA: NumField,
    managementUAH: NumField,
    weight: NumField,
    sellsCount: NumField,
    purchasedCount: NumField,
    chip: string,
    priceInUA: NumField,
    flags: Option<Flags>,
    incomes: seq<Entry<NumField>>,
    expenses: seq<Entry<ExpenseLine>>)

  // ---------------------------------------------------------------------
  // Default values.

  /** `x ?? d` on an optional string. */
  function StringOr(x: Option<string>, d: string): (r: string)
    ensures x.Some? ==> r == x.value
    ensures x.None? ==> r == d
  {
    if x.Some? then x.value else d
  }

  /** `x ?? false`. */
  function FlagOr(x: Option<bool>): (r: bool)
    ensures r <==> x == Some(true)
  {
    x.Some? && x.value
  }

  /** `a ?? b` on numbers: only an `undefined` or `null` `a` falls through. */
  function NumOr(a: NumField, b: NumField): (r: NumField)
    ensures !Nullish(a) ==> r == a
    ensures Nullish(a) ==> r == b
  {
    if Nullish(a) then b else a
  }

  /** The stored incomes as the map of the submit handler holds them. */
  function IncomeRecords(d: Option<InitialData>): seq<Persisted<NumField>>
  {
    var xs := if d.Some? && d.value.incomes.Some? then d.value.incomes.value else [];
    seq(|xs|, i requires 0 <= i < |xs| => Persisted(xs[i].id, xs[i].amount))
  }

  /** The stored expenses as the map of the submit handler holds them. */
  function ExpenseRecords(d: Option<InitialData>): seq<Persisted<ExpenseLine>>
  {
    var xs := if d.Some? && d.value.expenses.Some? then d.value.expenses.value else [];
    seq(|xs|, i requires 0 <= i < |xs| => Persisted(xs[i].id, ExpenseLine(xs[i].amount, xs[i].kind)))
  }

  /** The default values; `imageFallback` is what a product without an image
      array starts with, and `withFlags` says whether the form has flags. */
  function Defaults(d: Option<InitialData>, imageFallback: seq<string>, withFlags: bool): FormValues
  {
    if d.None? then
      FormValues("", imageFallback, "", "", Undefined, Undefined, Undefined, Undefined, Undefined, Undefined, "", Undefined,
                 if withFlags then Some(Flags(false, false, false, false, false)) else None, [], [])
    else
      var x := d.value;
      FormValues(
        StringOr(x.name, ""),
        DefaultRows(x.images, imageFallback),
        StringOr(x.olxUrl, ""),
        StringOr(x.pinduoduoUrl, ""),
        NumOr(NumOr(x.priceCNY, x.priceUAH), Undefined),
        NumOr(x.shippingUA, Undefined),
        NumOr(x.managementUAH, Undefined),
        NumOr(x.weight, Undefined),
        NumOr(x.sellsCount, Undefined),
        NumOr(x.purchasedCount, Undefined),
        StringOr(x.chip, ""),
        NumOr(x.priceInUA, Undefined),
        if withFlags then
          Some(Flags(FlagOr(x.workModalWindowIOS), FlagOr(x.soundReducer), FlagOr(x.sensesOfEar),
                     FlagOr(x.wirelessCharger), FlagOr(x.gyroscope)))
        else None,
        Reloaded(IncomeRecords(d)),
        Reloaded(ExpenseRecords(d)))
  }

  /** ProductForm.tsx 38-67. */
  function ProductFormDefaults(d: Option<InitialData>): FormValues
  {
    Defaults(d, [""], false)
  }

  /** ProductEditForm.tsx 42-75: this form has no shipping or management
      field, so those start missing whatever is stored. */
  function EditFormDefaults(d: Option<InitialData>): FormValues
  {
    Defaults(d, [], true).(shippingUA := Undefined, managementUAH := Undefined)
  }

  /** The form starts with one row per stored record, carrying its id and
      amount (and type), in the stored order; the images follow the stored
      array; the price falls back to the older `priceUAH` only when
      `priceCNY` is missing or null; no number field starts as `null`
      (`?? undefined`). */
  lemma DefaultsMirrorStored(d: Option<InitialData>, fallback: seq<string>, withFlags: bool)
    requires d.Some?
    ensures var v := Defaults(d, fallback, withFlags);
      && |v.incomes| == |IncomeRecords(d)|
      && (forall i :: 0 <= i < |v.incomes| ==>
            v.incomes[i].id == Some(IncomeRecords(d)[i].id) && v.incomes[i].payload == IncomeRecords(d)[i].payload)
      && |v.expenses| == |ExpenseRecords(d)|
      && (forall i :: 0 <= i < |v.expenses| ==>
            v.expenses[i].id == Some(ExpenseRecords(d)[i].id) && v.expenses[i].payload == ExpenseRecords(d)[i].payload)
      && (d.value.images.List? ==> |v.images| == |d.value.images.items|)
      && (!Nullish(d.value.priceCNY) ==> v.priceCNY == d.value.priceCNY)
      && (Nullish(d.value.priceCNY) && !Nullish(d.value.priceUAH) ==> v.priceCNY == d.value.priceUAH)
      && (Nullish(d.value.priceCNY) && Nullish(d.value.priceUAH) ==> v.priceCNY == Undefined)
      && (!Nullish(d.value.shippingUA) ==> v.shippingUA == d.value.shippingUA)
      && !v.priceCNY.Null? && !v.shippingUA.Null? && !v.managementUAH.Null? && !v.weight.Null?
      && !v.sellsCount.Null? && !v.purchasedCount.Null? && !v.priceInUA.Null?
  {
  }

  /** A flag the stored product lacks starts as `false`; a stored flag is
      kept. */
  lemma EditFlagsDefaultFalse(d: Option<InitialData>)
    ensures var f := EditFormDefaults(d).flags;
      && f.Some? && ProductFormDefaults(d).flags.None?
      && (d.None? ==> f.value == Flags(false, false, false, false, false))
      && (d.Some? && d.value.gyroscope.None? ==> !f.value.gyroscope)
      && (d.Some? && d.value.soundReducer.Some? ==> f.value.soundReducer == d.value.soundReducer.value)
      && (d.Some? ==> (f.value.workModalWindowIOS <==> d.value.workModalWindowIOS == Some(true)))
  {
  }

  /** Without stored data the create form starts with one empty image row
      and no income or expense row; the older edit form with no image row. */
  lemma EmptyDefaults()
    ensures ProductFormDefaults(None).images == [""]
    ensures EditFormDefaults(None).images == []
    ensures ProductFormDefaults(None).incomes == [] && ProductFormDefaults(None).expenses == []
  {
  }

  /** Both forms load the same stored rows and prices; the older one drops
      shipping and management. */
  lemma FormsLoadAlike(d: Option<InitialData>)
    ensures EditFormDefaults(d).incomes == ProductFormDefaults(d).incomes
    ensures EditFormDefaults(d).expenses == ProductFormDefaults(d).expenses
    ensures EditFormDefaults(d).priceCNY == ProductFormDefaults(d).priceCNY
    ensures EditFormDefaults(d).shippingUA.Undefined? && EditFormDefaults(d).managementUAH.Undefined?
    ensures d.Some? ==> ProductFormDefaults(d).shippingUA == NumOr(d.value.shippingUA, Undefined)
  {
  }

  // ---------------------------------------------------------------------
  // Auto-sync.

  /** The derivation inputs the form watches. */
  function InputsOf(v: FormValues): Inputs
  {
    Inputs(v.priceCNY, v.priceInUA, v.purchasedCount, v.sellsCount, v.shippingUA, v.managementUAH)
  }

  /** The single id-less income row holding `x` rounded to cents. */
  function SyncedIncome(x: real): seq<Entry<NumField>>
  {
    [Entry(None, Num(ToFixed2(x)))]
  }

  /** The single id-less purchase expense row holding `x` rounded to cents. */
  function SyncedExpense(x: real): seq<Entry<ExpenseLine>>
  {
    [Entry(None, ExpenseLine(Num(ToFixed2(x)), PurchaseType))]
  }

  /** ProductForm.tsx 135-168: each list is replaced only when its computed
      figure is positive. */
  function AutoSyncProductForm(v: FormValues, rate: real): FormValues
  {
    var f := Derive(InputsOf(v), rate);
    v.(incomes := if f.income > 0.0 then SyncedIncome(f.income) else v.incomes,
       expenses := if f.expense > 0.0 then SyncedExpense(f.expense) else v.expenses)
  }

  /** ProductEditForm.tsx 128-154: both lists are always replaced, with the
      older figures. */
  function AutoSyncEditForm(v: FormValues, rate: real): FormValues
  {
    var f := EditDerive(InputsOf(v), rate);
    v.(incomes := SyncedIncome(f.income), expenses := SyncedExpense(f.expense))
  }

  /** After a sync, the income list is one id-less row whose amount is the
      computed income to the cent when that is positive, and untouched
      otherwise; the same for expenses, with the purchase category; nothing
      else in the form changes. */
  lemma AutoSyncProductFormSpec(v: FormValues, rate: real)
    ensures var w := AutoSyncProductForm(v, rate);
            var f := Derive(InputsOf(v), rate);
      && (f.income > 0.0 ==>
            |w.incomes| == 1 && w.incomes[0].id.None? && w.incomes[0].payload.Num?
            && w.incomes[0].payload.v - f.income <= 0.005 && f.income - w.incomes[0].payload.v <= 0.005)
      && (f.income <= 0.0 ==> w.incomes == v.incomes)
      && (f.expense > 0.0 ==>
            |w.expenses| == 1 && w.expenses[0].id.None? && w.expenses[0].payload.kind == PurchaseType
            && w.expenses[0].payload.amount.Num?
            && w.expenses[0].payload.amount.v - f.expense <= 0.005 && f.expense - w.expenses[0].payload.amount.v <= 0.005)
      && (f.expense <= 0.0 ==> w.expenses == v.expenses)
      && w.(incomes := v.incomes, expenses := v.expenses) == v
  {
  }

  /** A positive computed expense discards every expense row the user had,
      including manually added ones: no row keeps an id. */
  lemma ManualExpensesDiscarded(v: FormValues, rate: real)
    requires Derive(InputsOf(v), rate).expense > 0.0
    ensures forall i :: 0 <= i < |AutoSyncProductForm(v, rate).expenses| ==>
      AutoSyncProductForm(v, rate).expenses[i].id.None?
    ensures |AutoSyncProductForm(v, rate).expenses| == 1
  {
  }

  /** The older edit form replaces both lists even when the figures are 0. */
  lemma AutoSyncEditFormSpec(v: FormValues, rate: real)
    ensures var w := AutoSyncEditForm(v, rate);
            var f := EditDerive(InputsOf(v), rate);
      && |w.incomes| == 1 && w.incomes[0].id.None? && w.incomes[0].payload.Num?
      && w.incomes[0].payload.v - f.income <= 0.005 && f.income - w.incomes[0].payload.v <= 0.005
      && |w.expenses| == 1 && w.expenses[0].id.None? && w.expenses[0].payload.kind == PurchaseType
      && w.expenses[0].payload.amount.Num?
      && w.expenses[0].payload.amount.v - f.expense <= 0.005 && f.expense - w.expenses[0].payload.amount.v <= 0.005
      && (f.income == 0.0 ==> w.incomes == [Entry(None, Num(0.0))])
      && w.(incomes := v.incomes, expenses := v.expenses) == v
  {
    if EditDerive(InputsOf(v), rate).income == 0.0 {
      CentsOfHundredths(0);
      assert 0 as real / 100.0 == 0.0;
    }
  }

  /** Running a sync again changes nothing: its inputs are not the lists it
      writes. */
  lemma AutoSyncIdempotent(v: FormValues, rate: real)
    ensures AutoSyncProductForm(AutoSyncProductForm(v, rate), rate) == AutoSyncProductForm(v, rate)
    ensures AutoSyncEditForm(AutoSyncEditForm(v, rate), rate) == AutoSyncEditForm(v, rate)
  {
    assert InputsOf(AutoSyncProductForm(v, rate)) == InputsOf(v);
    assert InputsOf(AutoSyncEditForm(v, rate)) == InputsOf(v);
  }

  // ---------------------------------------------------------------------
  // Auto-sync meets reconciliation.

  /** A list that is one fresh entry is saved as one POST followed by a
      DELETE of every stored record, in map order. */
  lemma {:induction false} FreshEntryPlan<P>(initial: seq<Id>, p: P, productId: Id)
    ensures Plan(initial, [Entry(None, p)], productId) == [Post(productId, p)] + Deletes(KeyOrder(initial))
  {
    var d := [Entry(None, p)];
    var ks := KeyOrder(initial);
    assert d[..|d| - 1] == [];
    assert Scan(ks, d[..|d| - 1], productId) == ([], ks);
    assert !Matches(d[0], ks);
    assert Scan(ks, d, productId) == ([] + [Post(productId, p)], ks);
    assert [] + [Post(productId, p)] == [Post(productId, p)];
  }

  /** ... which leaves the product with exactly one record, the new one. */
  lemma FreshEntryEffect<P>(stored: map<Id, P>, initial: seq<Id>, p: P, productId: Id)
    requires stored.Keys == SetOf(initial)
    ensures Apply(stored, [], Plan(initial, [Entry(None, p)], productId)) == (map[], [p])
  {
    FreshEntryPlan(initial, p, productId);
    var ks := KeyOrder(initial);
    ApplyConcat(stored, [], [Post(productId, p)], Deletes(ks));
    var post: seq<Op<P>> := [Post(productId, p)];
    assert post[..|post| - 1] == [];
    assert Apply(stored, [], post[..|post| - 1]) == (stored, []);
    assert [] + [p] == [p];
    assert Apply(stored, [], post) == (stored, [p]);
    ApplyDeletes(stored, [p], ks);
    assert SetOf(ks) == SetOf(initial);
    assert stored - SetOf(ks) == map[];
  }
}
