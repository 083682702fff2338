/** POST /api/products (app/api/products/route.ts 16-50): the request body
    is copied, property by property, into the new product's columns, with
    the images normalised. A property the body lacks is left out of the
    create data, so its column takes the database default. */
module ProductsRoute {
  import opened Common
  import opened Images
  import Submission
  import CreatePage
  import FormState

  /** The property names involved: those the handler reads, and those the
      two create forms send. A product column has the name of the property
      it is normally filled from. */
  datatype Key =
    | Name | OlxUrl | PinduoduoUrl | PriceCNY | PriceUAH | ShippingUA | ShippingCNY | ManagementUAH
    | WorkModalWindowIOS | SoundReducer | SensesOfEar | WirelessCharger | Gyroscope
    | Weight | MicrophoneQuality | SellsCount | PurchasedCount | Chip | Equipment | PriceInUA

  /** A JSON value the handler copies into a column. */
  datatype Json = JNull | JNumber(v: real) | JString(s: string) | JBool(b: bool)

  /** The parsed request body: its properties, and `images`. */
  datatype CreateRequest = CreateRequest(fields: map<Key, Json>, images: ImagesInput)

  /** The `data` of the create call: the columns it sets, and the images. */
  datatype CreateData = CreateData(columns: map<Key, Json>, images: seq<string>)

  /** The columns the handler writes (27-47): every name except the three
      that are only ever sent. */
  predicate Written(c: Key)
  {
    !c.PriceUAH? && !c.ShippingCNY? && !c.ManagementUAH?
  }

  /** The property each written column reads, as written: the shipping
      column reads `shippingCNY`, every other one its own name. */
  function Source(c: Key): Key
  {
    if c == ShippingUA then ShippingCNY else c
  }

  /** The create data, as written or with every column reading the property
      of its own name. */
  function CreateWith(corrected: bool, req: CreateRequest): (d: CreateData)
    ensures d.images == ServerImages(req.images)
  {
    var cols := if corrected then
        map c | c in req.fields && Written(c) :: req.fields[c]
      else
        map c | c in req.fields.Keys + {ShippingUA} && Written(c) && Source(c) in req.fields :: req.fields[Source(c)];
    CreateData(cols, ServerImages(req.images))
  }

  /** The handler as written. */
  function CreateAsWritten(req: CreateRequest): CreateData
  {
    CreateWith(false, req)
  }

  /** The handler with the shipping column read from `shippingUA`. */
  function CreateCorrected(req: CreateRequest): (d: CreateData)
    ensures forall c :: c in d.columns <==> Written(c) && c in req.fields
    ensures forall c :: c in d.columns ==> d.columns[c] == req.fields[c]
  {
    CreateWith(true, req)
  }

  // ---------------------------------------------------------------------
  // Request bodies the two create forms send.

  function JsonNum(w: WireNum): Json
  {
    if w.Number? then JNumber(w.v) else JNull
  }

  function JsonText(s: Option<string>): Json
  {
    if s.Some? then JString(s.value) else JNull
  }

  /** The body ProductForm.tsx posts when creating (`payloadStart`). */
  function FormRequest(p: Submission.ProductPayload): CreateRequest
  {
    CreateRequest(
      map[Name := JString(p.name), PriceCNY := JsonNum(p.priceCNY), ShippingUA := JsonNum(p.shippingUA),
          ManagementUAH := JsonNum(p.managementUAH), PriceInUA := JsonNum(p.priceInUA),
          OlxUrl := JsonText(p.olxUrl), PinduoduoUrl := JsonText(p.pinduoduoUrl),
          Weight := JsonNum(p.weight), SellsCount := JsonNum(p.sellsCount),
          PurchasedCount := JsonNum(p.purchasedCount), Chip := JsonText(p.chip)],
      List(Strs(p.images)))
  }

  /** The body app/product/page.tsx posts. */
  function PageRequest(p: CreatePage.CreatePayload): CreateRequest
  {
    CreateRequest(
      map[Name := JString(p.name), PriceUAH := JsonNum(p.priceUAH),
          OlxUrl := JsonText(p.olxUrl), PinduoduoUrl := JsonText(p.pinduoduoUrl),
          WorkModalWindowIOS := JBool(p.workModalWindowIOS), SoundReducer := JBool(p.soundReducer)],
      List(Strs(p.images)))
  }

  // ---------------------------------------------------------------------
  // Properties.

  /** Every written column except shipping is the request property of the
      same name, copied unchanged, and left out when the property is
      missing; shipping is `shippingCNY`; no other column is written. */
  lemma CopiesThrough(req: CreateRequest)
    ensures var d := CreateAsWritten(req);
      && (forall c :: Written(c) && c != ShippingUA ==>
            (c in d.columns <==> c in req.fields) && (c in d.columns ==> d.columns[c] == req.fields[c]))
      && (ShippingUA in d.columns <==> ShippingCNY in req.fields)
      && (ShippingUA in d.columns ==> d.columns[ShippingUA] == req.fields[ShippingCNY])
      && ManagementUAH !in d.columns && PriceUAH !in d.columns && ShippingCNY !in d.columns
  {
  }

  /** The request's own `shippingUA` never reaches the table. */
  lemma ShippingUAIgnored(req: CreateRequest, x: Json)
    ensures CreateAsWritten(CreateRequest(req.fields[ShippingUA := x], req.images)) == CreateAsWritten(req)
  {
    var req' := CreateRequest(req.fields[ShippingUA := x], req.images);
    assert CreateAsWritten(req').columns == CreateAsWritten(req).columns;
  }

  /** Creating from the product form stores no shipping and no management
      cost whatever the user entered: the form sends `shippingUA`, which the
      handler does not read. */
  lemma FormCreateLosesShipping(v: FormState.FormValues)
    ensures var d := CreateAsWritten(FormRequest(Submission.PayloadOf(v)));
      ShippingUA !in d.columns && ManagementUAH !in d.columns
  {
    var req := FormRequest(Submission.PayloadOf(v));
    assert ShippingCNY !in req.fields;
    var d := CreateAsWritten(req);
    assert ShippingUA !in d.columns;
  }

  /** The corrected handler stores the shipping the form sends, and agrees
      with the written one on every other column and on the images. */
  lemma CorrectedKeepsShipping(v: FormState.FormValues)
    ensures var req := FormRequest(Submission.PayloadOf(v));
            var d := CreateCorrected(req);
      && ShippingUA in d.columns
      && d.columns[ShippingUA] == JsonNum(Wire(v.shippingUA))
      && (v.shippingUA.Num? ==> d.columns[ShippingUA] == JNumber(v.shippingUA.v))
      && (forall c :: c in d.columns && c != ShippingUA ==>
            c in CreateAsWritten(req).columns && CreateAsWritten(req).columns[c] == d.columns[c])
      && d.images == CreateAsWritten(req).images
  {
    var req := FormRequest(Submission.PayloadOf(v));
    var d, a := CreateCorrected(req), CreateAsWritten(req);
    assert req.fields[ShippingUA] == JsonNum(Wire(v.shippingUA));
    CopiesThrough(req);
    forall c | c in d.columns && c != ShippingUA ensures c in a.columns && a.columns[c] == d.columns[c] {
    }
  }

  /** The images the product form sends are stored as sent. */
  lemma FormImagesStored(v: FormState.FormValues)
    ensures CreateAsWritten(FormRequest(Submission.PayloadOf(v))).images == PayloadImages(v.images)
  {
    ServerKeepsPayload(v.images);
  }

  /** The create page sends its price as `priceUAH`, which no column reads:
      the product is created without a price, while name, links, the two
      flags and the images are stored. */
  lemma PageCreateStoresNoPrice(v: CreatePage.CreateValues)
    ensures var d := CreateAsWritten(PageRequest(CreatePage.PayloadOf(v)));
      && PriceCNY !in d.columns && PriceUAH !in d.columns
      && Name in d.columns && d.columns[Name] == JString(v.name)
      && WorkModalWindowIOS in d.columns && d.columns[WorkModalWindowIOS] == JBool(v.workModalWindowIOS)
      && d.images == PayloadImages(v.images)
  {
    var p := CreatePage.PayloadOf(v);
    var req := PageRequest(p);
    assert PriceCNY !in req.fields;
    assert req.fields[Name] == JString(v.name);
    assert req.fields[WorkModalWindowIOS] == JBool(v.workModalWindowIOS);
    var d := CreateAsWritten(req);
    assert Name in d.columns && WorkModalWindowIOS in d.columns;
    ServerKeepsPayload(v.images);
  }
}
