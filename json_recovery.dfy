/** Recovering a JSON object from the free-form text a vision model answers with:
    `extractJson` in the TypeScript handler and the inline fallback at the end of
    `callGemini` in the JavaScript one. `JSON.parse` is the oracle `parse`.
    `{:induction false}` marks lemmas whose proof is written out: an induction of
    its own, or a direct argument for which Dafny's automatic induction hypotheses
    would only add solver work. */
module JsonRecovery {
  import opened JsRuntime

  const ExtractFailedMessage := "Failed to parse AI response as JSON"

  /** Some `{` comes before some `}` in the text. */
  ghost predicate HasBracedSpan(text: string)
  {
    exists i, j :: 0 <= i < j < |text| && text[i] == '{' && text[j] == '}'
  }

  /** `text.slice(indexOf('{'), lastIndexOf('}') + 1)` when the last `}` comes after the
      first `{`, and None otherwise. */
  function BraceSlice(text: string): (r: Option<string>)
    ensures r.None? <==> !HasBracedSpan(text)
    ensures r.Some? ==> var i, j := IndexOf(text, '{'), LastIndexOf(text, '}');
                        0 <= i < j && r.value == text[i..j + 1]
  {
    var start, end := IndexOf(text, '{'), LastIndexOf(text, '}');
    if start >= 0 && end > start then Some(text[start..end + 1])
    else
      NoSpanWithoutOrderedBraces(text);
      None
  }

  /** When the first `{` is missing or not before the last `}`, no `{` precedes any `}`. */
  lemma NoSpanWithoutOrderedBraces(text: string)
    requires var start, end := IndexOf(text, '{'), LastIndexOf(text, '}');
             !(start >= 0 && end > start)
    ensures !HasBracedSpan(text)
  {
    var start, end := IndexOf(text, '{'), LastIndexOf(text, '}');
    forall i, j | 0 <= i < j < |text| && text[i] == '{'
      ensures text[j] != '}'
    {
      assert text[i] in text;
    }
  }

  /** Text wrapped in prose without braces (`prefix {…} trailing`) slices to the
      braced part exactly. */
  lemma {:induction false} SliceOfWrapped(pre: string, body: string, post: string)
    requires '{' !in pre && '}' !in post
    requires |body| >= 2 && body[0] == '{' && body[|body| - 1] == '}'
    ensures BraceSlice(pre + body + post) == Some(body)
  {
    var text := pre + body + post;
    var start, end := IndexOf(text, '{'), LastIndexOf(text, '}');
    assert text[|pre|] == '{';
    assert text[|pre| + |body| - 1] == '}';
    assert text[..|pre|] == pre;
    assert text[|pre| + |body|..] == post;
    assert text[start..end + 1] == body;
  }

  /** `extractJson(text)` of the TypeScript handler: the direct parse, else the parse
      of the braced slice, else a fresh plain `Error`. */
  function ExtractJson(parse: string -> ParseOutcome, text: string): (r: Result<JsValue, Exception>)
    ensures parse(text).Parsed? ==> r == Ok(parse(text).value)
    ensures !parse(text).Parsed? && !HasBracedSpan(text) ==>
              r == Err(Exception(GenericError, ExtractFailedMessage))
    ensures !parse(text).Parsed? && HasBracedSpan(text) ==>
              var i, j := IndexOf(text, '{'), LastIndexOf(text, '}');
              0 <= i < j && r == ParseResult(parse(text[i..j + 1]))
    ensures r.Err? ==> r.error.cls in {GenericError, SyntaxError}
  {
    match parse(text)
    case Parsed(v) => Ok(v)
    case Unparsable(_) =>
      match BraceSlice(text)
      case Some(slice) => ParseResult(parse(slice))
      case None => Err(Exception(GenericError, ExtractFailedMessage))
  }

  /** The fallback inside `callGemini` of the JavaScript handler: the same slicing, but
      when there is no slice the original `SyntaxError` is rethrown. */
  function GeminiFallback(parse: string -> ParseOutcome, text: string): (r: Result<JsValue, Exception>)
    ensures parse(text).Parsed? ==> r == Ok(parse(text).value)
    ensures !parse(text).Parsed? && !HasBracedSpan(text) ==>
              r == Err(Exception(SyntaxError, parse(text).message))
    ensures !parse(text).Parsed? && HasBracedSpan(text) ==>
              var i, j := IndexOf(text, '{'), LastIndexOf(text, '}');
              0 <= i < j && r == ParseResult(parse(text[i..j + 1]))
  {
    match parse(text)
    case Parsed(v) => Ok(v)
    case Unparsable(m) =>
      match BraceSlice(text)
      case Some(slice) => ParseResult(parse(slice))
      case None => Err(Exception(SyntaxError, m))
  }

  /** The two copies recover exactly the same values; they differ only in the error
      raised when the text holds no braced span. */
  lemma FallbacksAgree(parse: string -> ParseOutcome, text: string)
    ensures ExtractJson(parse, text).Ok? <==> GeminiFallback(parse, text).Ok?
    ensures ExtractJson(parse, text).Ok? ==> ExtractJson(parse, text) == GeminiFallback(parse, text)
    ensures ExtractJson(parse, text) != GeminiFallback(parse, text) <==>
              !parse(text).Parsed? && !HasBracedSpan(text)
  {
  }

  /** A reply of prose around one JSON object, which the parser refuses whole but
      accepts once sliced, yields that object. */
  lemma ProseAroundObject(parse: string -> ParseOutcome, pre: string, body: string, post: string, v: JsValue)
    requires '{' !in pre && '}' !in post
    requires |body| >= 2 && body[0] == '{' && body[|body| - 1] == '}'
    requires parse(pre + body + post).Unparsable? && parse(body) == Parsed(v)
    ensures ExtractJson(parse, pre + body + post) == Ok(v)
    ensures GeminiFallback(parse, pre + body + post) == Ok(v)
  {
    SliceOfWrapped(pre, body, post);
  }
}
