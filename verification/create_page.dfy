/** The stand-alone create page (app/product/page.tsx): its starting values
    and the body its `onSubmit` posts to /api/products (43-54). */
module CreatePage {
  import opened Common
  import opened Images

  /** The page's form values. */
  datatype CreateValues = CreateValues(
    name: string,
    priceUAH: NumField,
    olxUrl: string,
    pinduoduoUrl: string,
    workModalWindowIOS: bool,
    soundReducer: bool,
    images: seq<string>)

  /** The request body. */
  datatype CreatePayload = CreatePayload(
    name: string,
    priceUAH: WireNum,
    olxUrl: Option<string>,
    pinduoduoUrl: Option<string>,
    workModalWindowIOS: bool,
    soundReducer: bool,
    images: seq<string>)

  /** How the handler ends: after a successful create the form is cleared
      and the dashboard opens; otherwise an alert. */
  datatype PageOutcome = Created | Failed(message: string)

  const CreateError: string := "Error creating product"

  /** The starting values (26-36): one empty image row, price 0. */
  const StartValues: CreateValues := CreateValues("", Num(0.0), "", "", false, false, [""])

  /** The body built from the values. */
  function PayloadOf(v: CreateValues): CreatePayload
  {
    CreatePayload(v.name, NumberWire(v.priceUAH), EmptyToNull(v.olxUrl), EmptyToNull(v.pinduoduoUrl),
                  v.workModalWindowIOS, v.soundReducer, PayloadImages(v.images))
  }

  /** `onSubmit`: the body is posted once; the server's answer decides the
      outcome. */
  function Submit(v: CreateValues, serverOk: bool): (CreatePayload, PageOutcome)
  {
    (PayloadOf(v), if serverOk then Created else Failed(CreateError))
  }

  /** The body keeps the name and the flags, sends a link only when it is
      not empty (and then verbatim), sends the price as a number exactly
      when `Number` makes one of it (a number, or 0 for `null`), and sends each non-blank image row trimmed,
      in row order. */
  lemma PayloadSpec(v: CreateValues)
    ensures var p := PayloadOf(v);
      && p.name == v.name
      && p.workModalWindowIOS == v.workModalWindowIOS && p.soundReducer == v.soundReducer
      && (p.olxUrl.None? <==> v.olxUrl == "") && (p.olxUrl.Some? ==> p.olxUrl.value == v.olxUrl)
      && (p.pinduoduoUrl.None? <==> v.pinduoduoUrl == "")
      && (p.pinduoduoUrl.Some? ==> p.pinduoduoUrl.value == v.pinduoduoUrl)
      && (p.priceUAH.Number? <==> v.priceUAH.Num? || v.priceUAH.Null?)
      && (v.priceUAH.Num? ==> p.priceUAH.v == v.priceUAH.v)
      && |p.images| <= |v.images|
      && (forall u :: u in p.images <==> exists i :: 0 <= i < |v.images| && Trim(v.images[i]) == u && u != "")
  {
    forall u ensures u in PayloadOf(v).images <==> exists i :: 0 <= i < |v.images| && Trim(v.images[i]) == u && u != "" {
      PayloadImagesMembership(v.images, u);
    }
  }

  /** Submitting the untouched image row sends no image, and the starting
      price is sent as 0. */
  lemma StartValuesPayload()
    ensures PayloadOf(StartValues).images == []
    ensures PayloadOf(StartValues).priceUAH == Number(0.0)
    ensures PayloadOf(StartValues).olxUrl.None? && PayloadOf(StartValues).pinduoduoUrl.None?
  {
    DefaultRowSendsNothing();
  }

  /** Building the body twice from what it sends gives the same images:
      the cleaning is idempotent. */
  lemma PayloadImagesStable(v: CreateValues)
    ensures PayloadOf(v.(images := PayloadOf(v).images)).images == PayloadOf(v).images
  {
    PayloadImagesIdempotent(v.images);
  }

  /** The outcome follows the server's answer alone. */
  lemma SubmitOutcome(v: CreateValues, serverOk: bool)
    ensures Submit(v, serverOk).1 == Created <==> serverOk
    ensures !serverOk ==> Submit(v, serverOk).1 == Failed(CreateError)
    ensures Submit(v, serverOk).0 == PayloadOf(v)
  {
  }
}
