/** Saving a product form: the product request, then (for an existing
    product whose request succeeded) the income and expense reconciliation,
    incomes first (`onSubmit` of components/product/ProductForm.tsx 170-285
    and components/product/ProductEditForm.tsx 156-235). The server's answer
    to the product request is a parameter; the answers to the line-item
    requests are never read by the handlers. */
module Submission {
  import opened Common
  import opened Rounding
  import opened Images
  import opened LineItemSync
  import opened Derivation
  import opened FormState
  import FieldRules

  /** The product fields ProductForm.tsx sends (`payloadStart`). */
  datatype ProductPayload = ProductPayload(
    name: string,
    priceCNY: WireNum,
    shippingUA: WireNum,
    managementUAH: WireNum,
    priceInUA: WireNum,
    olxUrl: Option<string>,
    pinduoduoUrl: Option<string>,
    weight: WireNum,
    sellsCount: WireNum,
    purchasedCount: WireNum,
    chip: Option<string>,
    images: seq<string>)

  /** The body of an expense request besides its id or product id. */
  datatype ExpenseBody = ExpenseBody(amount: WireNum, kind: string)

  /** The inputs BasicFields.tsx registers that the form values above do not
      hold. The older form's `...values` sends them with the rest. */
  datatype TypedFields = TypedFields(priceUAH: NumField, equipment: string, microphoneQuality: NumField)

  /** Those fields as the user left them in BasicFields.tsx. */
  function TypedOf(x: FieldRules.BasicInput): TypedFields
  {
    TypedFields(x.priceUAH, x.equipment, x.microphoneQuality)
  }

  /** The requests a save issues. */
  datatype Call =
    | UpdateProduct(productId: Id, body: ProductPayload)  // PATCH /api/products/{id}, ProductForm.tsx
    | CreateProduct(body: ProductPayload)                 // POST /api/products
    | EditProduct(productId: Id, values: FormValues, typed: TypedFields)  // PATCH /api/products/{id}: `...values`, typed fields included
    | IncomeCall(income: Op<WireNum>)                     // /api/incomes
    | ExpenseCall(expense: Op<ExpenseBody>)               // /api/expenses

  /** How the handler ends: it navigates to the dashboard (clearing the form
      after a create) or shows an alert. */
  datatype Outcome = Navigated(resetForm: bool) | Alerted(message: string)

  datatype Submission = Submission(calls: seq<Call>, outcome: Outcome)

  const SaveError: string := "Error saving product"
  const UpdateError: string := "Не удалось обновить продукт"

  // ---------------------------------------------------------------------
  // Request bodies.

  /** `payloadStart` (ProductForm.tsx 171-186). */
  function PayloadOf(v: FormValues): ProductPayload
  {
    ProductPayload(
      v.name, NumberWire(v.priceCNY), Wire(v.shippingUA), Wire(v.managementUAH), Wire(v.priceInUA),
      EmptyToNull(v.olxUrl), EmptyToNull(v.pinduoduoUrl),
      Wire(v.weight), Wire(v.sellsCount), Wire(v.purchasedCount),
      EmptyToNull(v.chip), PayloadImages(v.images))
  }

  /** The derivation inputs as the server receives them. */
  function InputsOfPayload(p: ProductPayload): Inputs
  {
    Inputs(Unwire(p.priceCNY), Unwire(p.priceInUA), Unwire(p.purchasedCount),
           Unwire(p.sellsCount), Unwire(p.shippingUA), Unwire(p.managementUAH))
  }

  /** The body carries every number the figures are computed from: read
      back with `Number(x) || 0`, it gives the figures the form showed, in
      either form's derivation. Empty links and chip become `null`; the
      images are the cleaned rows. */
  lemma PayloadKeepsFigures(v: FormValues, rate: real)
    ensures Derive(InputsOfPayload(PayloadOf(v)), rate) == Derive(InputsOf(v), rate)
    ensures EditDerive(InputsOfPayload(PayloadOf(v)), rate) == EditDerive(InputsOf(v), rate)
    ensures PayloadOf(v).olxUrl.None? <==> v.olxUrl == ""
    ensures PayloadOf(v).chip.None? <==> v.chip == ""
    ensures forall u :: u in PayloadOf(v).images ==> u != "" && Trim(u) == u
  {
    var p := PayloadOf(v);
    NumberWireVersusWire(v.priceCNY);
    WireRoundTrip(v.priceInUA);
    WireRoundTrip(v.purchasedCount);
    WireRoundTrip(v.sellsCount);
    WireRoundTrip(v.shippingUA);
    WireRoundTrip(v.managementUAH);
    MissingCountsAsZero(InputsOf(v), rate);
    MissingCountsAsZero(InputsOfPayload(p), rate);
    assert AsEntered(InputsOfPayload(p)) == AsEntered(InputsOf(v));
    PayloadImagesClean(v.images);
  }

  /** Income rows as sent: `Number(inc.amount)`, so a `null` amount is sent
      as 0. */
  function IncomeBodies(es: seq<Entry<NumField>>): (r: seq<Entry<WireNum>>)
    ensures |r| == |es|
    ensures forall i :: 0 <= i < |es| ==> r[i] == Entry(es[i].id, NumberWire(es[i].payload))
  {
    seq(|es|, i requires 0 <= i < |es| => Entry(es[i].id, NumberWire(es[i].payload)))
  }

  /** Expense rows as sent: `Number(exp.amount)` and the type. */
  function ExpenseBodies(es: seq<Entry<ExpenseLine>>): (r: seq<Entry<ExpenseBody>>)
    ensures |r| == |es|
    ensures forall i :: 0 <= i < |es| ==>
      r[i] == Entry(es[i].id, ExpenseBody(NumberWire(es[i].payload.amount), es[i].payload.kind))
  {
    seq(|es|, i requires 0 <= i < |es| =>
      Entry(es[i].id, ExpenseBody(NumberWire(es[i].payload.amount), es[i].payload.kind)))
  }

  /** The stored incomes the handler's map is built from. */
  function IncomeSnapshot(d: Option<InitialData>): (r: seq<Persisted<WireNum>>)
    ensures Ids(r) == Ids(IncomeRecords(d))
  {
    var xs := IncomeRecords(d);
    var r := seq(|xs|, i requires 0 <= i < |xs| => Persisted(xs[i].id, NumberWire(xs[i].payload)));
    assert Ids(r) == Ids(xs);
    r
  }

  /** The stored expenses the handler's map is built from. */
  function ExpenseSnapshot(d: Option<InitialData>): (r: seq<Persisted<ExpenseBody>>)
    ensures Ids(r) == Ids(ExpenseRecords(d))
  {
    var xs := ExpenseRecords(d);
    var r := seq(|xs|, i requires 0 <= i < |xs| =>
      Persisted(xs[i].id, ExpenseBody(NumberWire(xs[i].payload.amount), xs[i].payload.kind)));
    assert Ids(r) == Ids(xs);
    r
  }

  function IncomeCalls(ops: seq<Op<WireNum>>): (r: seq<Call>)
    ensures |r| == |ops| && forall i :: 0 <= i < |ops| ==> r[i] == IncomeCall(ops[i])
  {
    seq(|ops|, i requires 0 <= i < |ops| => IncomeCall(ops[i]))
  }

  function ExpenseCalls(ops: seq<Op<ExpenseBody>>): (r: seq<Call>)
    ensures |r| == |ops| && forall i :: 0 <= i < |ops| ==> r[i] == ExpenseCall(ops[i])
  {
    seq(|ops|, i requires 0 <= i < |ops| => ExpenseCall(ops[i]))
  }

  // ---------------------------------------------------------------------
  // The handlers.

  /** The income plan, then the expense plan. */
  function SyncCalls(d: Option<InitialData>, v: FormValues, productId: Id): seq<Call>
  {
    IncomeCalls(Plan(Ids(IncomeRecords(d)), IncomeBodies(v.incomes), productId))
    + ExpenseCalls(Plan(Ids(ExpenseRecords(d)), ExpenseBodies(v.expenses), productId))
  }

  /** `onSubmit` of ProductForm.tsx: a truthy `id` updates the product and,
      if that succeeds, reconciles the line items; otherwise the product is
      created and nothing else is sent. A failed product request ends in the
      alert. */
  function ProductFormSubmit(id: Option<Id>, d: Option<InitialData>, v: FormValues, productOk: bool): Submission
  {
    if Truthy(id) then
      Submission([UpdateProduct(id.value, PayloadOf(v))] + (if productOk then SyncCalls(d, v, id.value) else []),
                 if productOk then Navigated(false) else Alerted(SaveError))
    else
      Submission([CreateProduct(PayloadOf(v))], if productOk then Navigated(true) else Alerted(SaveError))
  }

  /** `onSubmit` of ProductEditForm.tsx: the product is sent with every form
      value, including the typed fields; a failed request alerts and
      returns. */
  function EditFormSubmit(id: Id, d: Option<InitialData>, v: FormValues, typed: TypedFields, productOk: bool): Submission
  {
    Submission([EditProduct(id, v, typed)] + (if productOk then SyncCalls(d, v, id) else []),
               if productOk then Navigated(false) else Alerted(UpdateError))
  }

  /** Both reconciliation loops, run one after the other. */
  method SyncLineItems(d: Option<InitialData>, v: FormValues, productId: Id) returns (calls: seq<Call>)
    ensures calls == SyncCalls(d, v, productId)
  {
    var incomeOps := Reconcile(IncomeSnapshot(d), IncomeBodies(v.incomes), productId);
    calls := IncomeCalls(incomeOps);
    var expenseOps := Reconcile(ExpenseSnapshot(d), ExpenseBodies(v.expenses), productId);
    calls := calls + ExpenseCalls(expenseOps);
  }

  method SubmitProductForm(id: Option<Id>, d: Option<InitialData>, v: FormValues, productOk: bool)
    returns (s: Submission)
    ensures s == ProductFormSubmit(id, d, v, productOk)
  {
    var payload := PayloadOf(v);
    if id.Some? && id.value != "" {
      if !productOk {
        return Submission([UpdateProduct(id.value, payload)], Alerted(SaveError));
      }
      var sync := SyncLineItems(d, v, id.value);
      s := Submission([UpdateProduct(id.value, payload)] + sync, Navigated(false));
    } else {
      s := Submission([CreateProduct(payload)], if productOk then Navigated(true) else Alerted(SaveError));
    }
  }

  method SubmitEditForm(id: Id, d: Option<InitialData>, v: FormValues, typed: TypedFields, productOk: bool)
    returns (s: Submission)
    ensures s == EditFormSubmit(id, d, v, typed, productOk)
  {
    if !productOk {
      return Submission([EditProduct(id, v, typed)], Alerted(UpdateError));
    }
    var sync := SyncLineItems(d, v, id);
    s := Submission([EditProduct(id, v, typed)] + sync, Navigated(false));
  }

  // ---------------------------------------------------------------------
  // Properties of a save.

  /** Creating a product sends the product alone: no income or expense
      request, whatever rows the form holds; the form is cleared only after a
      successful create. */
  lemma CreateNeverSyncs(id: Option<Id>, d: Option<InitialData>, v: FormValues, productOk: bool)
    requires !Truthy(id)
    ensures var s := ProductFormSubmit(id, d, v, productOk);
      && s.calls == [CreateProduct(PayloadOf(v))]
      && (forall i :: 0 <= i < |s.calls| ==> !s.calls[i].IncomeCall? && !s.calls[i].ExpenseCall?)
      && (s.outcome == Navigated(true) <==> productOk)
      && (s.outcome == Alerted(SaveError) <==> !productOk)
  {
  }

  /** A rejected product request is the last request either form sends. */
  lemma FailedUpdateStops(id: Option<Id>, editId: Id, d: Option<InitialData>, v: FormValues, typed: TypedFields)
    ensures |ProductFormSubmit(id, d, v, false).calls| == 1
    ensures ProductFormSubmit(id, d, v, false).outcome == Alerted(SaveError)
    ensures EditFormSubmit(editId, d, v, typed, false).calls == [EditProduct(editId, v, typed)]
    ensures EditFormSubmit(editId, d, v, typed, false).outcome == Alerted(UpdateError)
  {
  }

  /** The older form's product request carries the UAH price, equipment and
      microphone quality as typed; since the save runs only after the field
      rules pass, that price is a number of at least 0. ProductForm.tsx's
      body has no such field. */
  lemma EditBodyCarriesTypedFields(id: Id, d: Option<InitialData>, v: FormValues, x: FieldRules.BasicInput, productOk: bool)
    requires FieldRules.Accepted(x)
    ensures var c := EditFormSubmit(id, d, v, TypedOf(x), productOk).calls[0];
      && c == EditProduct(id, v, TypedOf(x))
      && c.typed.priceUAH == x.priceUAH
      && c.typed.priceUAH.Num? && c.typed.priceUAH.v >= 0.0
      && c.typed.equipment == x.equipment
      && c.typed.microphoneQuality == x.microphoneQuality
  {
    FieldRules.AcceptedIff(x);
  }

  /** A plan holds one request per row and one DELETE per unmatched record. */
  lemma PlanLength<P>(initial: seq<Id>, desired: seq<Entry<P>>, productId: Id)
    ensures |Plan(initial, desired, productId)| == |desired| + |Unmatched(initial, desired)|
  {
    PlanShape(initial, desired, productId);
  }

  /** A product request, then income requests, then expense requests. */
  lemma CallsInOrder(first: Call, ic: seq<Call>, ec: seq<Call>)
    requires forall i :: 0 <= i < |ic| ==> ic[i].IncomeCall?
    requires forall i :: 0 <= i < |ec| ==> ec[i].ExpenseCall?
    ensures var calls := [first] + ic + ec;
      && |calls| == 1 + |ic| + |ec|
      && calls[0] == first
      && (forall i :: 1 <= i <= |ic| ==> calls[i].IncomeCall?)
      && (forall i :: 1 + |ic| <= i < |calls| ==> calls[i].ExpenseCall?)
  {
    var calls := [first] + ic + ec;
    forall i | 1 <= i <= |ic| ensures calls[i].IncomeCall? {
      assert calls[i] == ic[i - 1];
    }
    forall i | 1 + |ic| <= i < |calls| ensures calls[i].ExpenseCall? {
      assert calls[i] == ec[i - 1 - |ic|];
    }
  }

  /** A successful update is followed by one request per income row and one
      DELETE per stored income no row carries, then the same for expenses;
      every income request precedes every expense request. */
  lemma UpdateThenSync(id: Id, d: Option<InitialData>, v: FormValues)
    requires id != ""
    ensures var calls := ProductFormSubmit(Some(id), d, v, true).calls;
            var n := |v.incomes| + |Unmatched(Ids(IncomeRecords(d)), IncomeBodies(v.incomes))|;
            var m := |v.expenses| + |Unmatched(Ids(ExpenseRecords(d)), ExpenseBodies(v.expenses))|;
      && |calls| == 1 + n + m
      && calls[0] == UpdateProduct(id, PayloadOf(v))
      && (forall i :: 1 <= i <= n ==> calls[i].IncomeCall?)
      && (forall i :: 1 + n <= i < |calls| ==> calls[i].ExpenseCall?)
  {
    var n := |IncomeBodies(v.incomes)| + |Unmatched(Ids(IncomeRecords(d)), IncomeBodies(v.incomes))|;
    var ic := IncomeCalls(Plan(Ids(IncomeRecords(d)), IncomeBodies(v.incomes), id));
    var ec := ExpenseCalls(Plan(Ids(ExpenseRecords(d)), ExpenseBodies(v.expenses), id));
    PlanLength(Ids(IncomeRecords(d)), IncomeBodies(v.incomes), id);
    PlanLength(Ids(ExpenseRecords(d)), ExpenseBodies(v.expenses), id);
    assert ProductFormSubmit(Some(id), d, v, true).calls == [UpdateProduct(id, PayloadOf(v))] + ic + ec;
    CallsInOrder(UpdateProduct(id, PayloadOf(v)), ic, ec);
  }

  /** Every expense row is sent with its amount and its type: as a PATCH of
      its own id, or as a POST for the product. */
  lemma ExpenseRequestsCarryType(id: Id, d: Option<InitialData>, v: FormValues, i: int)
    requires 0 <= i < |v.expenses|
    ensures var plan := Plan(Ids(ExpenseRecords(d)), ExpenseBodies(v.expenses), id);
      && |plan| > i
      && !plan[i].Delete?
      && plan[i].payload == ExpenseBody(NumberWire(v.expenses[i].payload.amount), v.expenses[i].payload.kind)
      && (plan[i].Patch? ==> Some(plan[i].id) == v.expenses[i].id)
      && (plan[i].Post? ==> plan[i].productId == id)
  {
    var bodies := ExpenseBodies(v.expenses);
    PlanShape(Ids(ExpenseRecords(d)), bodies, id);
    assert Answers(bodies[i], Plan(Ids(ExpenseRecords(d)), bodies, id)[i], id);
  }

  /** The rows the older edit form's auto-sync leaves, as sent. */
  lemma EditSyncedBodies(v: FormValues, rate: real)
    ensures var f := EditDerive(InputsOf(v), rate);
            var w := AutoSyncEditForm(v, rate);
      && IncomeBodies(w.incomes) == [Entry(None, Number(ToFixed2(f.income)))]
      && ExpenseBodies(w.expenses) == [Entry(None, ExpenseBody(Number(ToFixed2(f.expense)), PurchaseType))]
  {
  }

  /** A form holding one fresh income and one fresh expense row syncs as
      two POSTs, each followed by the DELETEs of every stored record. */
  lemma FreshRowsSync(d: Option<InitialData>, w: FormValues, id: Id, ib: WireNum, eb: ExpenseBody)
    requires IncomeBodies(w.incomes) == [Entry(None, ib)]
    requires ExpenseBodies(w.expenses) == [Entry(None, eb)]
    ensures SyncCalls(d, w, id) ==
      IncomeCalls([Post(id, ib)] + Deletes(KeyOrder(Ids(IncomeRecords(d)))))
      + ExpenseCalls([Post(id, eb)] + Deletes(KeyOrder(Ids(ExpenseRecords(d)))))
  {
    FreshEntryPlan(Ids(IncomeRecords(d)), ib, id);
    FreshEntryPlan(Ids(ExpenseRecords(d)), eb, id);
  }

  /** Saving the older edit form after its auto-sync creates one income and
      one purchase expense holding the rounded figures and deletes every
      stored income and expense, in stored order. */
  lemma EditSaveReplacesLineItems(id: Id, d: Option<InitialData>, v: FormValues, typed: TypedFields, rate: real)
    ensures var w := AutoSyncEditForm(v, rate);
            var f := EditDerive(InputsOf(v), rate);
      EditFormSubmit(id, d, w, typed, true).calls ==
        [EditProduct(id, w, typed)]
        + IncomeCalls([Post(id, Number(ToFixed2(f.income)))] + Deletes(KeyOrder(Ids(IncomeRecords(d)))))
        + ExpenseCalls([Post(id, ExpenseBody(Number(ToFixed2(f.expense)), PurchaseType))]
                       + Deletes(KeyOrder(Ids(ExpenseRecords(d)))))
  {
    var f := EditDerive(InputsOf(v), rate);
    var w := AutoSyncEditForm(v, rate);
    EditSyncedBodies(v, rate);
    FreshRowsSync(d, w, id, Number(ToFixed2(f.income)), ExpenseBody(Number(ToFixed2(f.expense)), PurchaseType));
    assert EditFormSubmit(id, d, w, typed, true).calls == [EditProduct(id, w, typed)] + SyncCalls(d, w, id);
  }

  /** After that save the product holds exactly one income and one expense
      record, the new ones: every record stored before is gone. */
  lemma EditSaveLeavesOneRecordEach(id: Id, d: Option<InitialData>, v: FormValues, rate: real,
                                    incomes: map<Id, WireNum>, expenses: map<Id, ExpenseBody>)
    requires incomes.Keys == SetOf(Ids(IncomeRecords(d)))
    requires expenses.Keys == SetOf(Ids(ExpenseRecords(d)))
    ensures var w := AutoSyncEditForm(v, rate);
            var f := EditDerive(InputsOf(v), rate);
      && Apply(incomes, [], Plan(Ids(IncomeRecords(d)), IncomeBodies(w.incomes), id))
           == (map[], [Number(ToFixed2(f.income))])
      && Apply(expenses, [], Plan(Ids(ExpenseRecords(d)), ExpenseBodies(w.expenses), id))
           == (map[], [ExpenseBody(Number(ToFixed2(f.expense)), PurchaseType)])
  {
    var f := EditDerive(InputsOf(v), rate);
    EditSyncedBodies(v, rate);
    FreshEntryEffect(incomes, Ids(IncomeRecords(d)), Number(ToFixed2(f.income)), id);
    FreshEntryEffect(expenses, Ids(ExpenseRecords(d)), ExpenseBody(Number(ToFixed2(f.expense)), PurchaseType), id);
  }

  /** The same for the newer form, when both computed figures are positive
      (otherwise that list keeps the rows it had). */
  lemma ProductSaveReplacesLineItems(id: Id, d: Option<InitialData>, v: FormValues, rate: real)
    requires id != ""
    requires Derive(InputsOf(v), rate).income > 0.0 && Derive(InputsOf(v), rate).expense > 0.0
    ensures var w := AutoSyncProductForm(v, rate);
            var f := Derive(InputsOf(v), rate);
      ProductFormSubmit(Some(id), d, w, true).calls ==
        [UpdateProduct(id, PayloadOf(w))]
        + IncomeCalls([Post(id, Number(ToFixed2(f.income)))] + Deletes(KeyOrder(Ids(IncomeRecords(d)))))
        + ExpenseCalls([Post(id, ExpenseBody(Number(ToFixed2(f.expense)), PurchaseType))]
                       + Deletes(KeyOrder(Ids(ExpenseRecords(d)))))
  {
    var f := Derive(InputsOf(v), rate);
    var w := AutoSyncProductForm(v, rate);
    assert IncomeBodies(w.incomes) == [Entry(None, Number(ToFixed2(f.income)))];
    assert ExpenseBodies(w.expenses) == [Entry(None, ExpenseBody(Number(ToFixed2(f.expense)), PurchaseType))];
    FreshRowsSync(d, w, id, Number(ToFixed2(f.income)), ExpenseBody(Number(ToFixed2(f.expense)), PurchaseType));
  }

  /** Saving a form whose income rows are still the stored ones re-sends one
      PATCH per stored record, with `Number` of its stored amount (0 for a
      `null` amount), and no POST or DELETE. ProductForm.tsx keeps those rows
      only while the computed income is at most 0. */
  lemma UnchangedRowsArePatched(id: Id, d: Option<InitialData>)
    requires Distinct(Ids(IncomeRecords(d)))
    requires forall i :: 0 <= i < |IncomeRecords(d)| ==> IncomeRecords(d)[i].id != ""
    ensures var rows := ProductFormDefaults(d).incomes;
            var plan := Plan(Ids(IncomeRecords(d)), IncomeBodies(rows), id);
      && |plan| == |IncomeRecords(d)|
      && forall i :: 0 <= i < |plan| ==>
           plan[i] == Patch(IncomeRecords(d)[i].id, NumberWire(IncomeRecords(d)[i].payload))
           && (IncomeRecords(d)[i].payload.Null? ==> plan[i].payload == Number(0.0))
  {
    var rows := ProductFormDefaults(d).incomes;
    var snap := IncomeSnapshot(d);
    assert IncomeBodies(rows) == Reloaded(snap);
    ResubmitIsPatchOnly(snap, id);
  }
}
