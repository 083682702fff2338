/** The field rules declared in `register` options by
    components/product/BasicFields.tsx (30-104) and app/product/page.tsx
    (81, 95-99), read as react-hook-form applies them: `required` fails on
    an empty input and is checked before `min`; `min` is checked only on a
    non-empty input; a field shows the first message that applies; the
    submit handler runs only when no field has a message. */
module FieldRules {
  import opened Common

  /** The fields that carry rules. */
  datatype Field = Name | PriceUAH | PriceInUA

  const NameRequired: string := "Name is required"
  const PriceRequired: string := "Price is required"
  const PriceNegative: string := "Price must be >= 0"
  const MustBeNonNegative: string := "Must be >= 0"

  /** What the inputs of BasicFields.tsx hold. A number input
      (`valueAsNumber`) left empty, or holding text the browser cannot
      parse, is missing or `NaN`. */
  datatype BasicInput = BasicInput(
    name: string,
    priceUAH: NumField,
    priceInUA: NumField,
    olxUrl: string,
    pinduoduoUrl: string,
    chip: string,
    equipment: string,
    weight: NumField,
    microphoneQuality: NumField,
    sellsCount: NumField)

  /** `required: message` on a text input: only the empty string fails. */
  function RequiredText(s: string, message: string): (r: Option<string>)
    ensures r.Some? <==> s == ""
  {
    if s == "" then Some(message) else None
  }

  /** `required` (when given) and `min: {value: 0, message}` on a number
      input. */
  function NumberRule(x: NumField, required: Option<string>, minMessage: string): Option<string>
  {
    if !x.Num? then required
    else if x.v < 0.0 then Some(minMessage)
    else None
  }

  /** A field's message, or no entry. */
  function MessageFor(f: Field, m: Option<string>): map<Field, string>
  {
    if m.Some? then map[f := m.value] else map[]
  }

  /** The messages BasicFields.tsx shows, by field. */
  function BasicFieldErrors(x: BasicInput): map<Field, string>
  {
    MessageFor(Name, RequiredText(x.name, NameRequired))
    + MessageFor(PriceUAH, NumberRule(x.priceUAH, Some(PriceRequired), PriceNegative))
    + MessageFor(PriceInUA, NumberRule(x.priceInUA, None, MustBeNonNegative))
  }

  /** The submit handler runs. */
  predicate Accepted(x: BasicInput)
  {
    BasicFieldErrors(x) == map[]
  }

  /** The form submits exactly when the name is not empty, the UAH price is
      a number of at least 0, and the price in UA is either empty or at
      least 0. */
  lemma AcceptedIff(x: BasicInput)
    ensures Accepted(x) <==>
      x.name != "" && x.priceUAH.Num? && x.priceUAH.v >= 0.0 && (x.priceInUA.Num? ==> x.priceInUA.v >= 0.0)
  {
    var e := BasicFieldErrors(x);
    if x.name == "" {
      assert Name in e;
    } else if !x.priceUAH.Num? || x.priceUAH.v < 0.0 {
      assert PriceUAH in e;
    } else if x.priceInUA.Num? && x.priceInUA.v < 0.0 {
      assert PriceInUA in e;
    }
  }

  /** Which message each field shows: an empty price is reported as missing,
      never as negative; the optional price has no "required" message. */
  lemma FieldMessages(x: BasicInput)
    ensures var e := BasicFieldErrors(x);
      && (Name in e <==> x.name == "")
      && (Name in e ==> e[Name] == NameRequired)
      && (!x.priceUAH.Num? ==> PriceUAH in e && e[PriceUAH] == PriceRequired)
      && (x.priceUAH.Num? ==> (PriceUAH in e <==> x.priceUAH.v < 0.0))
      && (x.priceUAH.Num? && x.priceUAH.v < 0.0 ==> e[PriceUAH] == PriceNegative)
      && (PriceInUA in e <==> x.priceInUA.Num? && x.priceInUA.v < 0.0)
      && (PriceInUA in e ==> e[PriceInUA] == MustBeNonNegative)
  {
  }

  /** Links, chip, equipment, weight, microphone quality and sells count
      carry no rule: any values, including negative numbers or `NaN`, leave
      the messages as they are. */
  lemma UnconstrainedFields(x: BasicInput, y: BasicInput)
    requires x.name == y.name && x.priceUAH == y.priceUAH && x.priceInUA == y.priceInUA
    ensures BasicFieldErrors(x) == BasicFieldErrors(y)
    ensures Accepted(x) <==> Accepted(y)
  {
  }

  /** Neither product form gives the UAH price a default, so its input
      starts empty: the save is blocked with "Price is required" whatever
      the other fields hold, and typing a price of at least 0 leaves only
      the name and the optional price to decide. */
  lemma UnsetPriceBlocksSave(x: BasicInput, p: real)
    requires x.priceUAH == Undefined
    requires p >= 0.0
    ensures !Accepted(x)
    ensures PriceUAH in BasicFieldErrors(x) && BasicFieldErrors(x)[PriceUAH] == PriceRequired
    ensures Accepted(x.(priceUAH := Num(p))) <==>
      x.name != "" && (x.priceInUA.Num? ==> x.priceInUA.v >= 0.0)
  {
    AcceptedIff(x);
    AcceptedIff(x.(priceUAH := Num(p)));
  }

  // ---------------------------------------------------------------------
  // The create page (app/product/page.tsx).

  /** The messages of the create page, which has only the name and the UAH
      price rules. */
  function CreatePageErrors(name: string, priceUAH: NumField): map<Field, string>
  {
    MessageFor(Name, RequiredText(name, NameRequired))
    + MessageFor(PriceUAH, NumberRule(priceUAH, Some(PriceRequired), PriceNegative))
  }

  /** The create page applies the same two rules as BasicFields.tsx with the
      same messages; an empty optional price makes the two agree exactly. */
  lemma CreatePageMatchesBasicFields(x: BasicInput)
    ensures CreatePageErrors(x.name, x.priceUAH) == BasicFieldErrors(x.(priceInUA := Undefined))
    ensures CreatePageErrors(x.name, x.priceUAH) == map[] <==>
      x.name != "" && x.priceUAH.Num? && x.priceUAH.v >= 0.0
  {
    var e := CreatePageErrors(x.name, x.priceUAH);
    if x.name == "" {
      assert Name in e;
    } else if !x.priceUAH.Num? || x.priceUAH.v < 0.0 {
      assert PriceUAH in e;
    }
  }

  /** The create page starts with a price of 0, which passes; its empty name
      does not. */
  lemma CreatePageDefaults()
    ensures CreatePageErrors("", Num(0.0)) == map[Name := NameRequired]
    ensures CreatePageErrors("AirPods", Num(0.0)) == map[]
  {
    assert MessageFor(PriceUAH, NumberRule(Num(0.0), Some(PriceRequired), PriceNegative)) == map[];
  }
}
