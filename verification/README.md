# Pinduoduo finance counter: a verified model of its product logic

The application tracks products bought on Pinduoduo and resold in Ukraine. For
each product it records a purchase price in CNY, counts bought and sold, and
income and expense records. This project models in Dafny the logic that lives
in its forms and route handlers, and proves what that logic guarantees.

- **Line-item reconciliation** (`LineItemSync`). When an existing product is
  saved, each form's `onSubmit` indexes the stored incomes (then expenses) by id
  in a JavaScript `Map`. An entry whose id is still in the map is PATCHed and
  leaves the map. Every other entry is POSTed for the product. The ids left in
  the map are DELETEd, in the map's key order.
  - The pure plan is `Plan`.
  - The handler itself is `Reconcile`, a method over a `PendingMap` class (the
    mutated `Map`), proved to issue exactly `Plan`.
  - `Apply` gives the effect of the requests on the stored records.
- **Unit economics** (`Derivation`). These are the figures both forms compute
  while the user types: unit cost, goods cost, income, expense and projected
  profit. Every field is read as `Number(x) || 0`, and the exchange rate counts
  as 1 unless it is positive.
- **Form state** (`FormState`):
  - the default values built from a stored product;
  - the auto-sync effects that overwrite the income and expense rows with one
    id-less row holding the computed figure, rounded as `Number(x.toFixed(2))`
    (`Rounding`).
- **Saving** (`Submission`). This is the request sequence of each form's
  `onSubmit`: the product request, then (after a successful update only) the
  income plan and then the expense plan. It also fixes how the handler ends.
- **Images** (`Images`). There are three normalisations:
  - the create handler's (`map`/`filter(Boolean)`, no trimming);
  - the payload of ProductForm.tsx and of the create page (`trim`, then drop
    empty). The older edit form sends its rows untrimmed;
  - the forms' default rows.

  `trim` is modelled with the ECMAScript WhiteSpace and LineTerminator
  characters.
- **The create page** (`CreatePage`) and **the create handler**
  (`ProductsRoute`): the body the page posts, and the columns
  `POST /api/products` writes from a request body.
- **Field rules** (`FieldRules`): the `register` options of the basic fields
  and of the create page, as react-hook-form applies them.
- **Dashboard** (`Dashboard`, `ProductCard`): per-product sums, the totals,
  and each card's balance and colour.
- **Bulk archive** (`BulkArchive`): the ids guard and the bulk update of the
  archive marker. The update is a method on a `ProductTable` class.

Money is `real`. `undefined`, `null`, `NaN` and a number are the four cases of
`NumField`. A field sent as `x ?? null` arrives as `null` in the first three
cases. A field sent as `Number(x)` arrives as 0 when it was `null`.
The server's answer to a product request is a parameter.

Four behaviours of the code are worth stating outright:

- When a list still holds the rows it was loaded with, saving re-issues one
  PATCH per stored record and the store does not change
  (`ResubmitIsPatchOnly`, `ResubmitLeavesStoreUnchanged`). In ProductForm.tsx
  that happens only for a list whose computed figure is at most 0
  (`AutoSyncProductFormSpec`). It never happens in ProductEditForm.tsx, whose
  auto-sync replaces both lists when the form opens.
- Every save of ProductEditForm.tsx therefore replaces the product's income
  and expense records with one new income and one new purchase expense
  (`EditSaveReplacesLineItems`, `EditSaveLeavesOneRecordEach`).
- The create handler does not trim image URLs.
- The product form's auto-sync discards manually added expense rows.

## Model

| member | source | states |
|---|---|---|
| Common.Wire | components/product/ProductForm.tsx:174-181 | a field sent as `x ?? null` reaches the server as a number exactly when it holds one; `undefined`, `null` and `NaN` all become `null` |
| Common.NumberWire | components/product/ProductForm.tsx:207 | a field sent as `Number(x)` reaches the server as a number exactly when it holds one or is `null`; `null` becomes 0; `undefined` and `NaN` become `null` |
| Common.NumberWireVersusWire | components/product/ProductForm.tsx:173-181 | the two ways of sending agree except on `null`; read back under `Number(x) \|\| 0` both keep the field's value; re-sending a `Number(x)` body reproduces it exactly when the field was a number or `null` |
| Common.WireRoundTrip | components/product/ProductForm.tsx:174-181 | reading a sent number back gives the same `Number(x) \|\| 0` value; sending it again gives the same body; a number survives unchanged |
| Common.EmptyToNull | app/product/page.tsx:47-48 | `s \|\| null` is null exactly for the empty string, and otherwise the string verbatim |
| Rounding.ToFixed2 | components/product/ProductForm.tsx:143-144 | the rounded amount is within half a cent of the exact one, keeps its sign, and is a whole number of cents |
| Rounding.CentsOfHundredths | components/product/ProductForm.tsx:143-144 | an amount that already is whole cents is stored unchanged |
| Rounding.ToFixed2Idempotent | components/product/ProductEditForm.tsx:134-136 | rounding an already rounded amount changes nothing |
| Derivation.EffectiveRate | components/product/ProductForm.tsx:115 | the rate used is always positive: the rate itself when positive, exactly 1 otherwise |
| Derivation.AsEntered | components/product/ProductForm.tsx:115-125 | every field as the computation reads it is a number |
| Derivation.Derive | components/product/ProductForm.tsx:115-131 | definition: the figures the newer form shows, each field read as `Number(x) \|\| 0` and the price converted at the effective rate |
| Derivation.EditDerive | components/product/ProductEditForm.tsx:123-126 | definition: the older form's two figures, income and the purchase expense |
| Derivation.MissingCountsAsZero | components/product/ProductForm.tsx:115-125 | an `undefined`, `null` or `NaN` field yields the same figures, in both forms, as a field holding 0 |
| Derivation.NonPositiveRateIsOne | components/product/ProductEditForm.tsx:123 | a rate of at most 0 gives exactly the figures of a rate of 1, in both forms |
| Derivation.VariantsDiffer | components/product/ProductEditForm.tsx:123-126 | the two forms agree on income; the older expense is the newer goods cost, so the newer expense is larger by exactly shipping plus management |
| Derivation.ProfitWhenSoldOut | components/product/ProductForm.tsx:129-131 | when sold equals purchased, projected profit equals income minus expense |
| Derivation.NonNegativeFigures | components/product/ProductForm.tsx:115-125 | non-negative fields give non-negative unit cost, sale price, goods cost and income, and an expense of at least the goods cost |
| Derivation.ExpenseMonotoneInPurchased | components/product/ProductForm.tsx:119-125 | buying more units at a non-negative price never lowers the expense |
| Derivation.WorkedExample | components/product/ProductForm.tsx:115-131 | 10 units at 100 CNY, rate 5, shipping 50, management 20, 6 sold at 80: expense 5070, income 480, projected profit -4270 |
| Images.ServerImages | app/api/products/route.ts:19-25 | definition: the list the create handler stores, for an array, a single string or anything else |
| Images.KeptUrls | app/api/products/route.ts:19-22 | the create handler keeps at most as many URLs as items, and none is empty |
| Images.KeptUrlsConcat | app/api/products/route.ts:20-22 | the normalisation works item by item: the result for a concatenation is the concatenation of the results, so order is kept |
| Images.KeptUrlsMembership | app/api/products/route.ts:20-22 | a URL is stored exactly when it is non-empty and some item (a string, or an object's `url`) carries it |
| Images.KeptUrlsOfStrings | app/api/products/route.ts:20-22 | a list of non-empty strings is stored unchanged |
| Images.ServerImagesIdempotent | app/api/products/route.ts:19-25 | normalising the handler's own output changes nothing |
| Images.ServerImagesKeepsBlanks | app/api/products/route.ts:19-25 | a blank URL survives (no trimming); a single string is wrapped even when empty; null, non-string items and empty strings are dropped |
| Images.ServerImagesExamples | app/api/products/route.ts:19-25 | a single string gives a one-element list; objects and strings mix in order, and an empty `url` is dropped |
| Images.Trim | components/product/ProductForm.tsx:184 | definition: `String.prototype.trim` over the ECMAScript WhiteSpace and LineTerminator characters |
| Images.TrimStart | components/product/ProductForm.tsx:184 | trimming the front leaves a suffix of the string |
| Images.TrimEnd | components/product/ProductForm.tsx:184 | trimming the back leaves a prefix of the string |
| Images.TrimSpec | components/product/ProductForm.tsx:184 | `trim` keeps one contiguous run of the string that is empty or starts and ends with a non-space, and everything cut before and after it is whitespace |
| Images.TrimIdempotent | components/product/ProductForm.tsx:184 | trimming twice is trimming once |
| Images.LeadingSpaceCut | app/product/page.tsx:52 | a URL with a leading space is sent without it |
| Images.PayloadImages | components/product/ProductForm.tsx:183-185 | definition: the trimmed row URLs with empty ones dropped |
| Images.PayloadImagesConcat | components/product/ProductForm.tsx:183-185 | the payload is built row by row: rows concatenated give payloads concatenated, so row order is kept |
| Images.PayloadImagesMembership | components/product/ProductForm.tsx:183-185 | a URL is sent exactly when it is the non-empty trim of some row |
| Images.PayloadImagesClean | app/product/page.tsx:51-53 | every URL sent is non-empty and already trimmed |
| Images.PayloadImagesOfClean | app/product/page.tsx:51-53 | trimmed non-empty rows are sent as they are |
| Images.PayloadImagesIdempotent | app/product/page.tsx:51-53 | shaping the payload twice is shaping it once |
| Images.DefaultRowSendsNothing | app/product/page.tsx:34 | the create page's single empty default row sends no image |
| Images.BlankRowSendsNothing | app/product/page.tsx:51-53 | a row holding only a space sends no image |
| Images.ServerKeepsPayload | app/api/products/route.ts:19-22 | what a form sends is stored by the create handler exactly as sent |
| Images.DefaultRows | components/product/ProductEditForm.tsx:42-46 | an image array gives one row per item, in order (a string, or an object's `url`, or ""); anything else gives the form's fallback |
| Images.ImagesRoundTrip | components/product/ProductForm.tsx:38-42 | opening a stored product in ProductForm.tsx and saving it sends back a list of trimmed, non-empty URLs unchanged and in order |
| Images.EditFormSendsStoredList | components/product/ProductEditForm.tsx:157-160 | the older form sends any stored list of strings, or of objects with a `url`, back unchanged: no trimming, no filtering |
| Images.NoStoredImagesSendsNone | components/product/ProductForm.tsx:38-42 | without an image array ProductForm.tsx sends no image (its empty row is dropped) and the older form has no row |
| LineItemSync.KeyOrder | components/product/ProductForm.tsx:199-201 | the map's keys are the stored ids, each once |
| LineItemSync.Without | components/product/ProductForm.tsx:209 | `Map.delete` removes exactly that key, keeps the others distinct, and shortens the keys by one when the key was present |
| LineItemSync.ClaimedMembership | components/product/ProductForm.tsx:203 | a stored id is claimed exactly when it is non-empty and some submitted entry carries it |
| LineItemSync.Scan | components/product/ProductForm.tsx:202-220 | definition: the loop over the rows, giving the PATCH or POST of each row and the ids still in the map |
| LineItemSync.Plan | components/product/ProductForm.tsx:199-228 | definition: the loop's requests, then one DELETE per id left in the map, in key order |
| LineItemSync.ScanFacts | components/product/ProductForm.tsx:202-220 | the loop answers each entry with one request carrying its payload: a PATCH of its own non-empty stored id, or a POST for the product. It leaves exactly the unclaimed ids, in map order, and leftovers plus entries equal stored ids plus POSTs |
| LineItemSync.ScanPatches | components/product/ProductForm.tsx:202-209 | the loop's PATCHes address distinct ids, exactly the claimed ones |
| LineItemSync.ScanClassifies | components/product/ProductForm.tsx:203 | an entry is PATCHed exactly when it is the first to carry a stored id |
| LineItemSync.PlanShape | components/product/ProductForm.tsx:202-228 | the plan is one request per entry in entry order, then one DELETE per unmatched id; the unmatched ids are distinct and are exactly the stored ids no entry carries |
| LineItemSync.PlanClassifies | components/product/ProductEditForm.tsx:174-188 | the first entry carrying a stored id gets a PATCH; every other entry (no id, an unknown id, a repeated id) gets a POST |
| LineItemSync.PlanTouchesEachOnce | components/product/ProductForm.tsx:202-228 | every stored id is touched (PATCH or DELETE) exactly once, and no other id is touched |
| LineItemSync.PlanDeletesLast | components/product/ProductForm.tsx:222-228 | every DELETE comes after every PATCH and POST |
| LineItemSync.Apply | app/api/incomes/route.ts:16-42 | definition: the effect of the requests on the stored records: a PATCH replaces the record of its id, a POST adds a record, a DELETE removes its id |
| LineItemSync.ApplyConcat | components/product/ProductForm.tsx:202-228 | requests apply one after another: applying a concatenation is applying the parts in turn |
| LineItemSync.ApplyDeletes | components/product/ProductForm.tsx:222-228 | the DELETE pass removes exactly the leftover ids |
| LineItemSync.PlanEffect | components/product/ProductEditForm.tsx:170-232 | after the plan, the stored ids are exactly those some entry carries; each holds the payload of its first carrier; the created records are the POSTed payloads; records equal entries in number |
| LineItemSync.Reloaded | components/product/ProductForm.tsx:57-65 | a form starts with one row per stored record, carrying its id and payload |
| LineItemSync.StoreOf | components/product/ProductForm.tsx:199-201 | the stored records as a map hold every record under its id |
| LineItemSync.ResubmitIsPatchOnly | components/product/ProductForm.tsx:202-228 | saving a list that still holds the rows it was loaded with sends one PATCH per record, with the body its row gives, and no POST or DELETE (in ProductForm.tsx only for a list whose computed figure is at most 0; never in ProductEditForm.tsx, whose auto-sync replaces the rows) |
| LineItemSync.ResubmitLeavesStoreUnchanged | components/product/ProductEditForm.tsx:174-196 | ...and those PATCHes, for a list still holding its loaded rows, leave the store as it was, creating nothing |
| LineItemSync.PendingMap.Has | components/product/ProductForm.tsx:203 | `Map.has` holds exactly for a key in the map's order |
| LineItemSync.PendingMap.Set | components/product/ProductForm.tsx:199-201 | `Map.set` appends a new key, keeps an existing key in its place, and stores the record |
| LineItemSync.PendingMap.Delete | components/product/ProductForm.tsx:209 | `Map.delete` removes the key from the order and the record |
| LineItemSync.Reconcile | components/product/ProductForm.tsx:199-228 | the handler's loops over the mutated map issue exactly `Plan`, so all plan properties hold of them |
| FormState.StringOr | components/product/ProductForm.tsx:45-48 | `x ?? d`: the stored string when present, else the default |
| FormState.FlagOr | components/product/ProductEditForm.tsx:54-58 | `x ?? false` is true exactly for a stored true |
| FormState.NumOr | components/product/ProductForm.tsx:49-56 | `a ?? b` on numbers: `a` unless it is `undefined` or `null`, in which case `b` |
| FormState.Defaults | components/product/ProductForm.tsx:44-67 | definition: the default values built from a stored product, shared by both forms |
| FormState.ProductFormDefaults | components/product/ProductForm.tsx:38-67 | definition: the newer form's defaults, with one empty image row when there is no image array |
| FormState.EditFormDefaults | components/product/ProductEditForm.tsx:42-75 | definition: the older form's defaults, with no image row, the flags, and no shipping or management |
| FormState.DefaultsMirrorStored | components/product/ProductForm.tsx:44-67 | the form starts with one row per stored income and expense, with its id and amount (and type), and one image row per stored image; the price falls back to `priceUAH` only when `priceCNY` is `undefined` or `null`; no number field starts as `null` |
| FormState.EditFlagsDefaultFalse | components/product/ProductEditForm.tsx:54-58 | a flag the stored product lacks starts false; a stored flag is kept |
| FormState.EmptyDefaults | components/product/ProductForm.tsx:38-42 | without stored data the newer form starts with one empty image row, the older with none, and no line items |
| FormState.FormsLoadAlike | components/product/ProductEditForm.tsx:48-75 | both forms load the same rows and price; the older one has no shipping or management |
| FormState.AutoSyncProductForm | components/product/ProductForm.tsx:135-168 | definition: the newer form's two auto-sync effects as one transition of the form values |
| FormState.AutoSyncEditForm | components/product/ProductEditForm.tsx:128-154 | definition: the older form's auto-sync effect as a transition of the form values |
| FormState.AutoSyncProductFormSpec | components/product/ProductForm.tsx:135-168 | a positive computed income (expense) replaces the list by one id-less row of that amount to the cent (with the purchase type); otherwise the list is untouched; nothing else changes |
| FormState.ManualExpensesDiscarded | components/product/ProductForm.tsx:153-166 | a positive computed expense leaves one row and no row with an id: manual rows are gone |
| FormState.AutoSyncEditFormSpec | components/product/ProductEditForm.tsx:128-154 | the older form always replaces both lists by one id-less row each, within half a cent of its figure (the expense with the purchase type), even with a figure of 0 |
| FormState.AutoSyncIdempotent | components/product/ProductForm.tsx:135-168 | running a sync again changes nothing, in either form |
| FormState.FreshEntryPlan | components/product/ProductEditForm.tsx:174-196 | a list that is one fresh row saves as one POST, then a DELETE of every stored record in map order |
| FormState.FreshEntryEffect | components/product/ProductEditForm.tsx:174-196 | ...leaving exactly one record, the new one |
| Submission.PayloadOf | components/product/ProductForm.tsx:171-186 | definition: `payloadStart`, the product body of the newer form |
| Submission.PayloadKeepsFigures | components/product/ProductForm.tsx:171-186 | the body carries every number the figures use: read back with `Number(x) \|\| 0` it gives the figures the form showed, in either derivation; empty links and chip become null; images are clean |
| Submission.IncomeSnapshot | components/product/ProductForm.tsx:199-201 | the income map is built from the stored incomes' ids |
| Submission.ExpenseSnapshot | components/product/ProductForm.tsx:230-232 | the expense map is built from the stored expenses' ids |
| Submission.ProductFormSubmit | components/product/ProductForm.tsx:170-285 | definition: the requests and the ending of the newer form's `onSubmit`, for a given server answer |
| Submission.EditFormSubmit | components/product/ProductEditForm.tsx:156-235 | definition: the same for the older form, which sends every form value, including the UAH price, equipment and microphone quality as typed, and returns after a failed update |
| Submission.SyncLineItems | components/product/ProductForm.tsx:199-263 | the two loops issue the income plan, then the expense plan |
| Submission.SubmitProductForm | components/product/ProductForm.tsx:170-285 | the newer form's save is exactly `ProductFormSubmit` |
| Submission.SubmitEditForm | components/product/ProductEditForm.tsx:156-235 | the older form's save is exactly `EditFormSubmit` |
| Submission.EditBodyCarriesTypedFields | components/product/ProductEditForm.tsx:156-164 | the older form's product request carries the UAH price, equipment and microphone quality as typed; because the save runs only after the field rules pass, that price is a number of at least 0 |
| Submission.CreateNeverSyncs | components/product/ProductForm.tsx:264-280 | creating sends the product alone, no line-item request; the form is cleared exactly after a successful create |
| Submission.FailedUpdateStops | components/product/ProductEditForm.tsx:166-169 | a rejected product request is the last request; each form shows its own alert |
| Submission.UpdateThenSync | components/product/ProductForm.tsx:188-263 | a successful update is followed by the income requests, then the expense requests, in counts fixed by the rows and the unmatched records |
| Submission.ExpenseRequestsCarryType | components/product/ProductEditForm.tsx:202-225 | every expense row is sent with its amount and type, as a PATCH of its own id or a POST for the product |
| Submission.EditSaveReplacesLineItems | components/product/ProductEditForm.tsx:128-232 | saving the older form after auto-sync POSTs the rounded income and purchase expense and DELETEs every stored record |
| Submission.EditSaveLeavesOneRecordEach | components/product/ProductEditForm.tsx:128-232 | after that save the product holds exactly one income and one expense, the new ones |
| Submission.ProductSaveReplacesLineItems | components/product/ProductForm.tsx:135-263 | the same for the newer form when both figures are positive |
| Submission.UnchangedRowsArePatched | components/product/ProductForm.tsx:57-60 | saving ProductForm.tsx while its income list still holds the loaded rows (the computed income is at most 0) re-sends one PATCH per record, with `Number` of its amount (0 for a `null` amount), and nothing else |
| CreatePage.PayloadOf | app/product/page.tsx:43-54 | definition: the body the create page posts |
| CreatePage.Submit | app/product/page.tsx:56-69 | definition: the posted body and how the handler ends, for a given server answer |
| CreatePage.PayloadSpec | app/product/page.tsx:43-54 | the body keeps name and flags; a link is null exactly when empty, else verbatim; the price is a number exactly when `Number` makes one (0 for `null`); images are the non-empty trims of the rows |
| CreatePage.StartValuesPayload | app/product/page.tsx:26-36 | submitting the starting values sends no image, a price of 0 and null links |
| CreatePage.PayloadImagesStable | app/product/page.tsx:51-53 | building the body from what it sent gives the same images |
| CreatePage.SubmitOutcome | app/product/page.tsx:56-69 | the body is posted once; the page succeeds exactly when the server does, and otherwise alerts "Error creating product" |
| ProductsRoute.CreateWith | app/api/products/route.ts:27-47 | the create data's images are always the normalised list, whichever property the shipping column reads |
| ProductsRoute.CreateAsWritten | app/api/products/route.ts:27-47 | definition: the create data as written, with the shipping column reading `shippingCNY` |
| ProductsRoute.CopiesThrough | app/api/products/route.ts:29-46 | every column except shipping is copied unchanged from the property of its name; shipping is copied from `shippingCNY`; `priceUAH` and `managementUAH` are never written |
| ProductsRoute.ShippingUAIgnored | app/api/products/route.ts:34 | the request's `shippingUA` never affects what is stored |
| ProductsRoute.FormCreateLosesShipping | app/api/products/route.ts:34 | creating from the product form stores no shipping and no management cost |
| ProductsRoute.CreateCorrected | app/api/products/route.ts:27-47 | with shipping read from `shippingUA`, every written column is the property of its name |
| ProductsRoute.CorrectedKeepsShipping | app/api/products/route.ts:34 | the corrected handler stores the form's shipping and agrees with the written one on every other column and on images |
| ProductsRoute.FormImagesStored | app/api/products/route.ts:19-30 | the images the product form sends are stored as sent |
| ProductsRoute.PageCreateStoresNoPrice | app/api/products/route.ts:29-36 | a product created from the create page has no price (its `priceUAH` is not read), while name, flags and images are stored |
| FieldRules.BasicFieldErrors | components/product/BasicFields.tsx:30-62 | definition: the message each field of BasicFields.tsx holds, if any; ProductForm.tsx shows it, ProductEditForm.tsx shows none |
| FieldRules.RequiredText | components/product/BasicFields.tsx:30 | `required` on a text input fails exactly on the empty string |
| FieldRules.AcceptedIff | components/product/BasicFields.tsx:30-62 | the form submits exactly when the name is non-empty, the UAH price is a number of at least 0, and the price in UA is empty or at least 0 |
| FieldRules.UnsetPriceBlocksSave | components/product/BasicFields.tsx:45-48 | with the UAH price input empty, as both forms start it, the save is blocked with "Price is required"; once a price of at least 0 is typed, the save goes ahead exactly when the name is non-empty and the price in UA is empty or at least 0 |
| FieldRules.FieldMessages | components/product/BasicFields.tsx:45-62 | an empty price shows "Price is required", never the minimum message; a negative one "Price must be >= 0"; the optional price only "Must be >= 0" |
| FieldRules.UnconstrainedFields | components/product/BasicFields.tsx:68-105 | links, chip, equipment, weight, microphone quality and sells count never cause a message |
| FieldRules.CreatePageMatchesBasicFields | app/product/page.tsx:81-99 | the create page applies the same name and price rules with the same messages, and submits exactly on a name and a price of at least 0 |
| FieldRules.CreatePageDefaults | app/product/page.tsx:26-36 | the starting price passes; the empty starting name does not |
| ProductCard.Balance | components/dashboard/ProductCard.tsx:20 | the balance is income minus spent: non-negative exactly when income covers spent, 0 exactly when they are equal |
| ProductCard.BalanceTone | components/dashboard/ProductCard.tsx:37 | green exactly when income is at least spent, red exactly otherwise |
| ProductCard.BalanceIgnoresLabels | components/dashboard/ProductCard.tsx:20 | balance and colour depend only on the two amounts |
| Dashboard.SumAmounts | app/page.tsx:19-24 | definition: `reduce((sum, e) => sum + (e.amount \|\| 0), 0)`, with 0 for a list that is not an array |
| Dashboard.ToCard | app/page.tsx:18-35 | definition: the card built from one product: its sums, its thumbnail, its id and name |
| Dashboard.Thumbnail | app/page.tsx:25-27 | the first image when there is one, else the placeholder |
| Dashboard.Cards | app/page.tsx:18-35 | one card per product, in order, keeping id and name; a null answer gives none |
| Dashboard.SummaryOf | app/page.tsx:55 | the variations count is the number of cards |
| Dashboard.SumAmountsConcat | app/page.tsx:19-24 | sums of amounts add over concatenation |
| Dashboard.SumSkipsMissing | app/page.tsx:20 | `null`, missing and `NaN` amounts do not change a sum |
| Dashboard.SumNonNegative | app/page.tsx:19-24 | non-negative amounts give a non-negative sum |
| Dashboard.TotalsAreSumsOfRecords | app/page.tsx:46-47 | total spent is the sum of every expense record of every product, total income of every income record |
| Dashboard.NetIsSumOfBalances | app/page.tsx:46-47 | total income minus total spent is the sum of the card balances |
| Dashboard.TotalsConcat | app/page.tsx:46-47 | the totals of two groups of cards add up |
| Dashboard.SyncedCardBalance | app/page.tsx:19-24 | a product holding one auto-synced income and expense shows them, and a balance within a cent of the exact difference |
| Dashboard.EmptyDashboard | app/page.tsx:18 | a null or empty answer shows no card and zero totals |
| Dashboard.WorkedCard | app/page.tsx:19-27 | expenses 5000, `null`, 70 and income 480 give a red card with balance -4590 and the placeholder image |
| BulkArchive.Handle | app/api/products/bulk-archive/route.ts:4-34 | definition: the handler's answer and the product table it leaves |
| BulkArchive.ProductTable.BulkArchive | app/api/products/bulk-archive/route.ts:4-34 | the handler's answer and the table it leaves are exactly `Handle` |
| BulkArchive.InvalidIdsRejected | app/api/products/bulk-archive/route.ts:8-13 | non-array or empty `ids` gives 400 "Invalid ids array" and no update |
| BulkArchive.ArchivesExactlyListed | app/api/products/bulk-archive/route.ts:15-26 | valid ids give success; exactly the listed products get the marker; no product is added or removed and nothing else changes |
| BulkArchive.FailuresChangeNothing | app/api/products/bulk-archive/route.ts:26-32 | a failure answers 500 "Failed to update products" (or 400) and changes nothing; the status is always 200, 400 or 500 |
| BulkArchive.HandleIdempotent | app/api/products/bulk-archive/route.ts:15-24 | sending the same request twice leaves the table as sending it once |
| BulkArchive.UnknownIdsIgnored | app/api/products/bulk-archive/route.ts:15-20 | ids of products that do not exist change nothing |

## Left out

- The exchange-rate fetch (ProductForm.tsx 91-106, ProductEditForm.tsx 102-117) is network I/O. The rate is a parameter.
- `fetch` and database calls are not modelled as I/O:
  - requests are values of type `Op`/`Call`;
  - their effect on stored records is `Apply`, over an id-keyed map;
  - the answer to the product request is a boolean parameter. It covers only an answer that arrives. If the product `fetch` itself rejects, ProductForm.tsx (281-284) shows its alert, but ProductEditForm.tsx (161-165, no try/catch) ends in an unhandled rejection with no alert. `Submission.EditFormSubmit` does not model that case.
- Partial failure and racing between the awaited requests are not modelled. A rejected `fetch` of a line-item request is not modelled either. The requests are an ordered sequence that always completes.
- When React runs the auto-sync effects (`useEffect` dependencies, `useFieldArray`, re-rendering) is not modelled. Auto-sync is a plain transition of the form values.
- Floating point is not modelled: binary rounding, `NaN` arithmetic, `Infinity` and `Number.isFinite`. A non-finite computed amount, which the forms store as 0, cannot arise over `real`. `toFixed(2)` is taken on exact decimals.
- The income and expense routes enter the model only through `Apply`: a PATCH sets the amount (and the type), a POST creates a record, a DELETE removes one. Their failures, for example an unknown id, are not modelled. The health and `[id]` routes and DeleteProductButton.tsx are not part of this model.
- The GET and DELETE handlers of app/api/products/route.ts are not modelled: each is a single database call.
- The database schema is not part of this model. Defaults of omitted columns are not modelled, and neither is the type coercion of Prisma `Decimal` values read back as strings.
- Ids, URLs and `ids` elements are strings. Non-string values of those properties are not modelled.
- The older edit form's defaults for `microphoneQuality` and `equipment` (the stored value, or "") are not modelled. The typed fields it sends are a parameter of `Submission.EditFormSubmit`. The newer form's `exchangeRate: 42` default is not modelled either, because it feeds no modelled computation.
- The older edit form sends its whole form state as the product body. `Call.EditProduct` carries the form values and the typed fields (`Submission.TypedFields`). Its JSON encoding is not modelled.
- Both ProductForm.tsx and ProductEditForm.tsx (line 239) render BasicFields.tsx, so the `onSubmit` of each runs only when `FieldRules.Accepted` holds. `Submission.ProductFormSubmit` and `Submission.EditFormSubmit` model the handlers from the point where validation has passed.
- The UAH price that rule demands is not part of ProductForm.tsx's `payloadStart`. The older form sends it with `...values` (`Submission.EditBodyCarriesTypedFields`), but the update route (app/api/products/[id]/route.ts), which is not part of this model, writes no `priceUAH`. The create page's `priceUAH` is not stored by the create handler either (`ProductsRoute.PageCreateStoresNoPrice`). Neither form's defaults set the UAH price, so in both forms it starts empty and blocks the save until one is typed (`FieldRules.UnsetPriceBlocksSave`).
- ProductEditForm.tsx passes `errors={{}}` to BasicFields.tsx, so none of the messages of `FieldRules.BasicFieldErrors` is shown there. A blocked save there shows nothing; the messages the model gives are the ones ProductForm.tsx shows.
- Presentation components (FlagsFields, ImagesFieldArray, Header, Summary, ProductGrid) are not modelled: they contain markup only.

## Findings

| source | as written | input that shows it | evidently intended | confidence | as-written member | corrected member |
|---|---|---|---|---|---|---|
| app/api/products/route.ts:34 | the `shippingUA` column is filled from the request's `shippingCNY`, a property neither form sends | ProductForm.tsx opened without an `id` and with `initialData` holding `shippingUA: 50` posts a body with `shippingUA: 50`; the created product has no shipping | fill `shippingUA` from the request's `shippingUA` | medium, not executed | ProductsRoute.FormCreateLosesShipping | ProductsRoute.CorrectedKeepsShipping |

The create page (app/product/page.tsx:46) sends its price as `priceUAH`, and the create handler writes no `priceUAH` column: a product created from that page is stored without the price entered there (`ProductsRoute.PageCreateStoresNoPrice`).
