/** The result normaliser shared by both handlers (`normalize` in the TypeScript
    handler, `normalizeResult` in the JavaScript one; the two bodies are the same).
    It turns whatever object the vision model returned into a bounded record.
    `{:induction false}` marks lemmas whose proof is written out: an induction of
    its own, or a direct argument for which Dafny's automatic induction hypotheses
    would only add solver work. */
module Nutrition {
  import opened JsRuntime

  /** The record sent back to the client. `healthScore` is the `health_score` field. */
  datatype NutritionResult = NutritionResult(
    name: string,
    calories: int,
    protein: int,
    carbs: int,
    fats: int,
    healthScore: int,
    confidence: real,
    warnings: seq<string>)

  /** `Number(v) || 0`: NaN and every non-numeric value become 0. */
  function NumberOrZero(v: JsValue): real
  {
    match ToNumber(v)
    case Some(x) => x
    case None => 0.0
  }

  /** What the integer coercion must make of `v`: a non-negative whole number that is 0
      for a non-numeric or non-positive input and otherwise the nearest whole number to
      it, halves going up. */
  ghost predicate WholeFrom(v: JsValue, k: int)
  {
    && k >= 0
    && (ToNumber(v).None? ==> k == 0)
    && (ToNumber(v).Some? && ToNumber(v).value <= 0.0 ==> k == 0)
    && (ToNumber(v).Some? && ToNumber(v).value > 0.0 ==>
          k as real - 0.5 <= ToNumber(v).value < k as real + 0.5)
  }

  /** What the confidence coercion must make of `v`: the number clamped to [0, 1],
      and 0 for a non-numeric input. */
  ghost predicate UnitFrom(v: JsValue, c: real)
  {
    && 0.0 <= c <= 1.0
    && (ToNumber(v).None? ==> c == 0.0)
    && (ToNumber(v).Some? && 0.0 <= ToNumber(v).value <= 1.0 ==> c == ToNumber(v).value)
    && (ToNumber(v).Some? && ToNumber(v).value < 0.0 ==> c == 0.0)
    && (ToNumber(v).Some? && ToNumber(v).value > 1.0 ==> c == 1.0)
  }

  /** The TypeError `String(v)` and `Number(v)` throw for an unprintable value. */
  const ToPrimitiveError := Exception(TypeError, ToPrimitiveMessage)

  /** `toInt`: `Math.max(0, Math.round(Number(v) || 0))`, which throws where `Number`
      does. */
  function ToInt(v: JsValue): (r: Result<int, Exception>)
    ensures r.Err? <==> Unprintable(v)
    ensures r.Err? ==> r.error == ToPrimitiveError
    ensures r.Ok? ==> WholeFrom(v, r.value)
  {
    if Unprintable(v) then Err(ToPrimitiveError) else Ok(Max(0, Round(NumberOrZero(v))))
  }

  /** `toFloat`: `Math.max(0, Math.min(1, Number(v) || 0))`, which throws where `Number`
      does. */
  function ToFloat(v: JsValue): (r: Result<real, Exception>)
    ensures r.Err? <==> Unprintable(v)
    ensures r.Err? ==> r.error == ToPrimitiveError
    ensures r.Ok? ==> UnitFrom(v, r.value)
  {
    if Unprintable(v) then Err(ToPrimitiveError)
    else
      var x := NumberOrZero(v);
      Ok(if x < 0.0 then 0.0 else if x > 1.0 then 1.0 else x)
  }

  /** `String(raw.name || 'Unknown')`. */
  function NameOf(v: JsValue): Result<string, Exception>
  {
    if !Truthy(v) then Ok("Unknown")
    else if Unprintable(v) then Err(ToPrimitiveError)
    else Ok(ToJsString(v))
  }

  /** `Array.isArray(w) ? w.map(String) : []`; the map throws when an element is
      unprintable, which is when the array is. */
  function WarningsOf(v: JsValue): Result<seq<string>, Exception>
  {
    if !v.Arr? then Ok([])
    else if Unprintable(v) then Err(ToPrimitiveError)
    else Ok(seq(|v.items|, i requires 0 <= i < |v.items| => ToJsString(v.items[i])))
  }

  /** Some coercion inside `normalize(raw)` throws. */
  predicate NormalizeThrows(raw: JsValue)
  {
    || Unprintable(Field(raw, "name"))
    || Unprintable(Field(raw, "calories"))
    || Unprintable(Field(raw, "protein"))
    || Unprintable(Field(raw, "carbs"))
    || Unprintable(Field(raw, "fats"))
    || Unprintable(Field(raw, "health_score"))
    || Unprintable(Field(raw, "confidence"))
    || (Field(raw, "warnings").Arr? && Unprintable(Field(raw, "warnings")))
  }

  /** `normalize(raw)` for a value whose fields can be read (anything but null and
      undefined); a field that is absent reads as undefined. Every coercion throws the
      same TypeError, so which field is converted first does not change the outcome. */
  function Normalize(raw: JsValue): (r: Result<NutritionResult, Exception>)
    requires !raw.Null? && !raw.Undefined?
    ensures r.Err? <==> NormalizeThrows(raw)
    ensures r.Err? ==> r.error == ToPrimitiveError
    ensures r.Ok? ==>
              && WholeFrom(Field(raw, "calories"), r.value.calories)
              && WholeFrom(Field(raw, "protein"), r.value.protein)
              && WholeFrom(Field(raw, "carbs"), r.value.carbs)
              && WholeFrom(Field(raw, "fats"), r.value.fats)
              && WholeFrom(Field(raw, "health_score"), r.value.healthScore)
              && UnitFrom(Field(raw, "confidence"), r.value.confidence)
    ensures r.Ok? && Truthy(Field(raw, "name")) ==> r.value.name == ToJsString(Field(raw, "name"))
    ensures r.Ok? && !Truthy(Field(raw, "name")) ==> r.value.name == "Unknown"
    ensures r.Ok? && !Field(raw, "warnings").Arr? ==> r.value.warnings == []
    ensures r.Ok? && Field(raw, "warnings").Arr? ==>
              var items := Field(raw, "warnings").items;
              |r.value.warnings| == |items| &&
              forall i :: 0 <= i < |items| ==> r.value.warnings[i] == ToJsString(items[i])
  {
    if NormalizeThrows(raw) then Err(ToPrimitiveError)
    else
      Ok(NutritionResult(
        NameOf(Field(raw, "name")).value,
        ToInt(Field(raw, "calories")).value,
        ToInt(Field(raw, "protein")).value,
        ToInt(Field(raw, "carbs")).value,
        ToInt(Field(raw, "fats")).value,
        ToInt(Field(raw, "health_score")).value,
        ToFloat(Field(raw, "confidence")).value,
        WarningsOf(Field(raw, "warnings")).value))
  }

  /** The TypeError `raw.name` throws when `raw` is null. */
  const NullNameMessage := "Cannot read properties of null (reading 'name')"

  /** Calling `normalize` on what the model returned: reading `raw.name` throws a
      TypeError when the parsed JSON is null or undefined, and a coercion throws one
      for an unprintable field. */
  function NormalizeValue(raw: JsValue): (r: Result<NutritionResult, Exception>)
    ensures r.Err? <==> raw.Null? || raw.Undefined? || NormalizeThrows(raw)
    ensures r.Err? ==> r.error.cls == TypeError
    ensures !raw.Null? && !raw.Undefined? ==> r == Normalize(raw)
  {
    if raw.Null? then Err(Exception(TypeError, NullNameMessage))
    else if raw.Undefined? then Err(Exception(TypeError, "Cannot read properties of undefined (reading 'name')"))
    else Normalize(raw)
  }

  /** Whatever `normalize` returns has non-negative figures and a confidence in [0, 1]. */
  lemma NormalizedBounded(raw: JsValue, r: NutritionResult)
    requires NormalizeValue(raw) == Ok(r)
    ensures r.calories >= 0 && r.protein >= 0 && r.carbs >= 0 && r.fats >= 0 && r.healthScore >= 0
    ensures 0.0 <= r.confidence <= 1.0
  {
  }

  /** A record that `normalize` can produce and that survives the JSON round trip. */
  predicate WellFormed(r: NutritionResult)
  {
    && r.name != []
    && r.calories >= 0 && r.protein >= 0 && r.carbs >= 0 && r.fats >= 0 && r.healthScore >= 0
    && 0.0 <= r.confidence <= 1.0
  }

  /** A list of strings as a JSON array. */
  function StringArray(ws: seq<string>): JsValue
  {
    Arr(seq(|ws|, i requires 0 <= i < |ws| => Str(ws[i])))
  }

  /** The record as the JSON object the handler sends. */
  function Encode(r: NutritionResult): JsValue
  {
    Obj(map[
      "name" := Str(r.name),
      "calories" := Num(r.calories as real),
      "protein" := Num(r.protein as real),
      "carbs" := Num(r.carbs as real),
      "fats" := Num(r.fats as real),
      "health_score" := Num(r.healthScore as real),
      "confidence" := Num(r.confidence),
      "warnings" := StringArray(r.warnings)])
  }

  /** Warnings that are already strings pass through `normalize` unchanged. */
  lemma StringWarningsKept(ws: seq<string>)
    ensures WarningsOf(StringArray(ws)) == Ok(ws)
  {
    var v := StringArray(ws);
    assert !Unprintable(v) by {
      forall i | 0 <= i < |v.items| ensures !Unprintable(v.items[i]) {
        assert v.items[i] == Str(ws[i]);
      }
    }
    var strs := seq(|v.items|, i requires 0 <= i < |v.items| => ToJsString(v.items[i]));
    assert strs == ws by {
      forall i | 0 <= i < |ws| ensures strs[i] == ws[i] {
        assert v.items[i] == Str(ws[i]);
      }
    }
  }

  /** A whole number that is not negative is its own integer coercion. */
  lemma ToIntOfWhole(k: int)
    requires k >= 0
    ensures ToInt(Num(k as real)) == Ok(k)
  {
    assert Round(k as real) == k;
  }

  /** Normalising the JSON form of a well-formed record gives the record back. */
  lemma {:induction false} NormalizeEncode(r: NutritionResult)
    requires WellFormed(r)
    ensures NormalizeValue(Encode(r)) == Ok(r)
  {
    var e := Encode(r);
    EncodeFields(r);
    ToIntOfWhole(r.calories);
    ToIntOfWhole(r.protein);
    ToIntOfWhole(r.carbs);
    ToIntOfWhole(r.fats);
    ToIntOfWhole(r.healthScore);
    StringWarningsKept(r.warnings);
    assert !NormalizeThrows(e);
    assert NameOf(Field(e, "name")) == Ok(r.name);
    assert ToFloat(Field(e, "confidence")) == Ok(r.confidence);
  }

  /** Each field of the JSON form reads back as the record's value. */
  lemma EncodeFields(r: NutritionResult)
    ensures var e := Encode(r);
            && Field(e, "name") == Str(r.name)
            && Field(e, "calories") == Num(r.calories as real)
            && Field(e, "protein") == Num(r.protein as real)
            && Field(e, "carbs") == Num(r.carbs as real)
            && Field(e, "fats") == Num(r.fats as real)
            && Field(e, "health_score") == Num(r.healthScore as real)
            && Field(e, "confidence") == Num(r.confidence)
            && Field(e, "warnings") == StringArray(r.warnings)
  {
  }

  /** `normalize` reaches a fixed point: its output, sent as JSON and normalised
      again, is unchanged whenever the name it produced is not empty. */
  lemma NormalizeIsNormalForm(raw: JsValue)
    requires !raw.Null? && !raw.Undefined?
    requires Normalize(raw).Ok? && Normalize(raw).value.name != []
    ensures NormalizeValue(Encode(Normalize(raw).value)) == Normalize(raw)
  {
    NormalizeEncode(Normalize(raw).value);
  }

  /** The name default does not make the name non-empty: an empty array is truthy
      and its string form is empty. */
  lemma EmptyArrayName()
    ensures var r := Normalize(Obj(map["name" := Arr([])]));
            r.Ok? && r.value.name == []
  {
  }

  /** A numeric or name field holding an object with its own `toString` key makes
      `normalize` throw the conversion's TypeError. */
  lemma {:induction false} OwnToStringThrows(fields: map<string, JsValue>, key: string)
    requires key in {"name", "calories", "protein", "carbs", "fats", "health_score", "confidence"}
    requires key in fields && fields[key].Obj? && "toString" in fields[key].fields
    ensures NormalizeValue(Obj(fields)) == Err(ToPrimitiveError)
  {
    assert Unprintable(Field(Obj(fields), key));
  }

  /** So does a warning that holds such an object. */
  lemma {:induction false} OwnToStringWarningThrows(fields: map<string, JsValue>, i: nat)
    requires "warnings" in fields && fields["warnings"].Arr? && i < |fields["warnings"].items|
    requires var w := fields["warnings"].items[i]; w.Obj? && "toString" in w.fields
    ensures NormalizeValue(Obj(fields)) == Err(ToPrimitiveError)
  {
    assert Unprintable(fields["warnings"].items[i]);
  }
}
