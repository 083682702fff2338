/** Values shared by every part of the model: optional values, record
    identities and the numbers a form field can hold. */
module Common {

  /** Record identities are the strings the database assigns. */
  type Id = string

  datatype Option<T> = None | Some(value: T)

  /** A numeric form field or JSON number: `undefined` (the property is
      missing), `null`, `NaN` (an empty or unparsable number input), or a
      number. */
  datatype NumField = Undefined | Null | NotANumber | Num(v: real)

  /** The values `??` replaces. */
  predicate Nullish(x: NumField)
  {
    x.Undefined? || x.Null?
  }

  /** JavaScript `Number(x) || 0`: `undefined`, `null` and `NaN` all become 0. */
  function OrZero(x: NumField): real
  {
    if x.Num? then x.v else 0.0
  }

  /** A number inside a JSON request body: a number or `null`
      (`JSON.stringify` writes `NaN` as `null`). */
  datatype WireNum = JsonNull | Number(v: real)

  /** A field sent as `x ?? null`: a number is sent as itself; `undefined`,
      `null` and `NaN` all arrive as `null`. */
  function Wire(x: NumField): (w: WireNum)
    ensures w.Number? <==> x.Num?
  {
    if x.Num? then Number(x.v) else JsonNull
  }

  /** A field sent as `Number(x)`: `Number(null)` is 0, while
      `Number(undefined)` is `NaN` and arrives as `null`. */
  function NumberWire(x: NumField): (w: WireNum)
    ensures w.Number? <==> x.Num? || x.Null?
    ensures x.Num? ==> w == Number(x.v)
    ensures x.Null? ==> w == Number(0.0)
  {
    match x
    case Num(v) => Number(v)
    case Null => Number(0.0)
    case _ => JsonNull
  }

  /** A JSON number read back into a field. */
  function Unwire(w: WireNum): NumField
  {
    if w.Number? then Num(w.v) else Null
  }

  /** Sending a field loses only the difference between `undefined`, `null`
      and `NaN`: read back, it has the same value under `Number(x) || 0`, and
      sending it again gives the same body. */
  lemma WireRoundTrip(x: NumField)
    ensures OrZero(Unwire(Wire(x))) == OrZero(x)
    ensures Wire(Unwire(Wire(x))) == Wire(x)
    ensures x.Num? ==> Unwire(Wire(x)) == x
  {
  }

  /** The two ways of sending a number differ only on `null`, and read back
      under `Number(x) || 0` both give the value the field had. Sending a
      `Number(x)` body again reproduces it exactly when it held a number:
      a `null` that came from `undefined` or `NaN` is read back as `null`,
      which `Number` turns into 0. */
  lemma NumberWireVersusWire(x: NumField)
    ensures !x.Null? ==> NumberWire(x) == Wire(x)
    ensures OrZero(Unwire(NumberWire(x))) == OrZero(x)
    ensures NumberWire(Unwire(NumberWire(x))) == NumberWire(x) <==> x.Num? || x.Null?
  {
  }

  /** JavaScript `s || null` on a string: the empty string is falsy. */
  function EmptyToNull(s: string): (r: Option<string>)
    ensures r.None? <==> s == ""
    ensures r.Some? ==> r.value == s
  {
    if s == "" then None else Some(s)
  }

  /** Truthiness of an optional identity, as in `if (inc.id && ...)`. */
  predicate Truthy(id: Option<Id>)
  {
    id.Some? && id.value != ""
  }

  predicate Distinct<T(==)>(s: seq<T>)
  {
    forall i, j :: 0 <= i < j < |s| ==> s[i] != s[j]
  }

  function SetOf<T>(s: seq<T>): set<T>
  {
    set x | x in s
  }

  /** A sequence without repetitions has as many distinct elements as entries. */
  lemma {:induction false} DistinctCard<T>(s: seq<T>)
    requires Distinct(s)
    ensures |SetOf(s)| == |s|
  {
    if s != [] {
      var t := s[..|s| - 1];
      assert Distinct(t);
      DistinctCard(t);
      assert s == t + [s[|s| - 1]];
      assert SetOf(s) == SetOf(t) + {s[|s| - 1]};
      assert s[|s| - 1] !in SetOf(t);
    }
  }
}
