/** Validation of the uploaded image: the data-URL parsers of both handlers and the
    decoded-size ceiling of the TypeScript one.
    `{:induction false}` marks lemmas whose proof is written out: an induction of
    its own, or a direct argument for which Dafny's automatic induction hypotheses
    would only add solver work. */
module Payload {
  import opened JsRuntime

  datatype DataUrl = DataUrl(mimeType: string, base64: string)

  const Marker := ";base64,"
  const AllowedMime: set<string> := {"image/jpeg", "image/png", "image/webp"}
  const MaxDecodedBytes := 3 * 1024 * 1024

  const NotDataUrlMessage := "image_base64 must be a data URL (data:<mime>;base64,...)"
  const InvalidDataUrlMessage := "Invalid data URL"

  function UnsupportedMessage(mime: string): string
  {
    "Unsupported image type: " + mime + ". Allowed: image/jpeg, image/png, image/webp"
  }

  /** The data URL a mime type and a payload spell. */
  function Format(mime: string, base64: string): string
  {
    "data:" + mime + Marker + base64
  }

  /* ------------------------------------------------------------------ */
  /*  TypeScript handler: /^data:([^;]+);base64,(.+)$/s plus allow-list  */
  /* ------------------------------------------------------------------ */

  /** The match of `/^data:([^;]+);base64,(.+)$/s`: the mime type runs from `data:` to
      the first `;`, which must open `;base64,`; the payload is the non-empty rest (the
      `s` flag lets it hold line breaks). */
  function MatchStrict(raw: string): (m: Option<DataUrl>)
    ensures m.Some? ==> raw == Format(m.value.mimeType, m.value.base64)
    ensures m.Some? ==> m.value.mimeType != [] && ';' !in m.value.mimeType && m.value.base64 != []
  {
    if StartsWith(raw, "data:") then
      var rest := raw[5..];
      var i := IndexOf(rest, ';');
      if 1 <= i && i + 8 < |rest| && rest[i..i + 8] == Marker then
        FormatOfParts(raw, i);
        Some(DataUrl(rest[..i], rest[i + 8..]))
      else None
    else None
  }

  /** A text that starts with `data:` and holds `;base64,` after `i` more characters
      spells the data URL of the parts around the marker. */
  lemma FormatOfParts(raw: string, i: nat)
    requires 5 + i + 8 <= |raw| && raw[..5] == "data:" && raw[5..][i..i + 8] == Marker
    ensures raw == Format(raw[5..][..i], raw[5..][i + 8..])
  {
    var mime, base64 := raw[5..][..i], raw[5..][i + 8..];
    var f := Format(mime, base64);
    assert |f| == |raw|;
    forall k | 0 <= k < |raw| ensures f[k] == raw[k] {
      if k < 5 {
        assert f[k] == "data:"[k] == raw[..5][k];
      } else if k < 5 + i {
        assert f[k] == mime[k - 5];
      } else if k < 13 + i {
        assert f[k] == Marker[k - 5 - i] == raw[5..][i..i + 8][k - 5 - i];
      } else {
        assert f[k] == base64[k - 13 - i];
      }
    }
  }

  /** Every `data:<mime>;base64,<payload>` with a non-empty mime type free of `;` and a
      non-empty payload matches, and splits back into its parts. */
  lemma {:induction false} MatchStrictFormatted(mime: string, base64: string)
    requires mime != [] && ';' !in mime && base64 != []
    ensures MatchStrict(Format(mime, base64)) == Some(DataUrl(mime, base64))
  {
    FormatRest(mime, base64);
    RestParts(mime, base64);
  }

  /** `data:` opens the URL and the rest is the mime type, the marker and the payload. */
  lemma FormatRest(mime: string, base64: string)
    ensures StartsWith(Format(mime, base64), "data:")
    ensures Format(mime, base64)[5..] == mime + Marker + base64
  {
    var raw := Format(mime, base64);
    assert raw == "data:" + (mime + Marker + base64);
  }

  /** The mime type is followed by the marker, which its first `;` opens. */
  lemma RestParts(mime: string, base64: string)
    requires ';' !in mime
    ensures var rest := mime + Marker + base64;
            && IndexOf(rest, ';') == |mime|
            && rest[|mime|..|mime| + 8] == Marker
            && rest[..|mime|] == mime
            && rest[|mime| + 8..] == base64
  {
    var rest := mime + Marker + base64;
    assert rest == mime + (Marker + base64);
    FirstSemicolon(mime, Marker + base64);
  }

  /** The first `;` of `mime + tail` opens `tail` when the mime type holds none. */
  lemma FirstSemicolon(mime: string, tail: string)
    requires ';' !in mime && tail != [] && tail[0] == ';'
    ensures IndexOf(mime + tail, ';') == |mime|
  {
    var s := mime + tail;
    assert s[|mime|] == ';';
    forall k | 0 <= k < |mime| ensures s[k] != ';' {
      assert s[k] == mime[k];
    }
  }

  /** `parseDataUrl` of the TypeScript handler: the match above, then the allow-list. */
  function ParseDataUrl(raw: string): (r: Result<DataUrl, Exception>)
    ensures r.Ok? ==> r.value.mimeType in AllowedMime
    ensures r.Ok? ==> MatchStrict(raw) == Some(r.value)
    ensures r.Err? ==> r.error.cls == ValidationError
    ensures MatchStrict(raw).None? ==> r == Err(Exception(ValidationError, NotDataUrlMessage))
  {
    match MatchStrict(raw)
    case None => Err(Exception(ValidationError, NotDataUrlMessage))
    case Some(d) =>
      if d.mimeType in AllowedMime then Ok(d)
      else Err(Exception(ValidationError, UnsupportedMessage(d.mimeType)))
  }

  /** Every allowed image type with a non-empty payload is accepted and split back
      into its parts. */
  lemma ParseFormatted(mime: string, base64: string)
    requires mime in AllowedMime && base64 != []
    ensures ParseDataUrl(Format(mime, base64)) == Ok(DataUrl(mime, base64))
  {
    assert ';' !in mime;
    MatchStrictFormatted(mime, base64);
  }

  /** A well-shaped data URL whose type is not allowed (image/gif, say) is refused with
      a validation error naming the type. */
  lemma RejectsOtherMime(mime: string, base64: string)
    requires mime !in AllowedMime && mime != [] && ';' !in mime && base64 != []
    ensures ParseDataUrl(Format(mime, base64)) == Err(Exception(ValidationError, UnsupportedMessage(mime)))
  {
    MatchStrictFormatted(mime, base64);
  }

  lemma GifRejected(base64: string)
    requires base64 != []
    ensures ParseDataUrl(Format("image/gif", base64)).Err?
  {
    RejectsOtherMime("image/gif", base64);
  }

  /* ------------------------------------------------------------------ */
  /*  Decoded-size ceiling                                               */
  /* ------------------------------------------------------------------ */

  /** `Math.ceil(len * 3 / 4)`: the decoded size the base64 length stands for. */
  function DecodedSize(base64Length: nat): (n: nat)
    ensures 4 * n >= 3 * base64Length
    ensures 4 * (n - 1) < 3 * base64Length
  {
    (3 * base64Length + 3) / 4
  }

  predicate TooLarge(base64: string)
  {
    DecodedSize(|base64|) > MaxDecodedBytes
  }

  /** The guard answers 413 exactly for payloads longer than 4 MiB of base64 text:
      a payload decoding to exactly 3 MiB passes, one byte more does not. */
  lemma TooLargeThreshold(base64: string)
    ensures TooLarge(base64) <==> |base64| > 4 * 1024 * 1024
  {
  }

  lemma CeilingBoundary()
    ensures DecodedSize(4 * 1024 * 1024) == MaxDecodedBytes
    ensures DecodedSize(4 * 1024 * 1024 + 1) == MaxDecodedBytes + 1
  {
  }

  /* ------------------------------------------------------------------ */
  /*  JavaScript handler: /^data:(.+);base64,(.+)$/ without allow-list   */
  /* ------------------------------------------------------------------ */

  /** The characters `.` does not match without the `s` flag. */
  predicate IsLineTerminator(c: char)
  {
    c == '\n' || c == '\r' || c == '\U{2028}' || c == '\U{2029}'
  }

  predicate SingleLine(s: string)
  {
    forall i :: 0 <= i < |s| ==> !IsLineTerminator(s[i])
  }

  /** `;base64,` starts at position `q` of the text after `data:`, with a non-empty mime
      type before it and a non-empty payload after it. */
  predicate MarkerAt(rest: string, q: int)
  {
    1 <= q && q + 8 < |rest| && rest[q..q + 8] == Marker
  }

  /** The largest marker position not beyond `hi`, or -1: the greedy `(.+)` backs off
      from the end until `;base64,(.+)$` matches. */
  function LastMarker(rest: string, hi: int): (q: int)
    ensures q == -1 || (1 <= q <= hi && MarkerAt(rest, q))
    ensures forall p :: q < p <= hi ==> !MarkerAt(rest, p)
    decreases hi
  {
    if hi < 1 then -1
    else if MarkerAt(rest, hi) then hi
    else LastMarker(rest, hi - 1)
  }

  /** `parseDataUrl` of the JavaScript handler: any mime type, split at the LAST
      `;base64,` that leaves a non-empty payload, and no line break anywhere. */
  function ParseDataUrlLoose(raw: string): (r: Result<DataUrl, Exception>)
    ensures r.Ok? <==> StartsWith(raw, "data:") && SingleLine(raw) && exists q :: MarkerAt(raw[5..], q)
    ensures r.Ok? ==> raw == Format(r.value.mimeType, r.value.base64)
    ensures r.Ok? ==> r.value.mimeType != [] && r.value.base64 != []
    ensures r.Ok? ==> forall p :: |r.value.mimeType| < p ==> !MarkerAt(raw[5..], p)
    ensures r.Err? ==> r.error == Exception(GenericError, InvalidDataUrlMessage)
  {
    if StartsWith(raw, "data:") && SingleLine(raw) then
      var rest := raw[5..];
      var q := LastMarker(rest, |rest| - 9);
      if q < 0 then
        Err(Exception(GenericError, InvalidDataUrlMessage))
      else
        assert raw == "data:" + rest;
        assert rest == rest[..q] + Marker + rest[q + 8..];
        Ok(DataUrl(rest[..q], rest[q + 8..]))
    else Err(Exception(GenericError, InvalidDataUrlMessage))
  }

  /** Any single-line mime type is accepted when the payload holds no `;`; in
      particular the loose parser has no allow-list. */
  lemma {:induction false} LooseAcceptsAnyMime(mime: string, base64: string)
    requires mime != [] && base64 != [] && ';' !in base64
    requires SingleLine(mime) && SingleLine(base64)
    ensures ParseDataUrlLoose(Format(mime, base64)) == Ok(DataUrl(mime, base64))
  {
    var raw := Format(mime, base64);
    var rest := mime + Marker + base64;
    assert raw == "data:" + rest;
    assert raw[5..] == rest;
    FormatSingleLine(mime, base64);
    OnlyMarkerAfterMime(mime, base64);
    assert rest[..|mime|] == mime;
    assert rest[|mime| + 8..] == base64;
  }

  lemma FormatSingleLine(mime: string, base64: string)
    requires SingleLine(mime) && SingleLine(base64)
    ensures SingleLine(Format(mime, base64))
  {
    var raw := Format(mime, base64);
    forall i | 0 <= i < |raw| ensures !IsLineTerminator(raw[i]) {
      if i < 5 {
        assert raw[i] == "data:"[i];
      } else if i < 5 + |mime| {
        assert raw[i] == mime[i - 5];
      } else if i < 13 + |mime| {
        assert raw[i] == Marker[i - 5 - |mime|];
      } else {
        assert raw[i] == base64[i - 13 - |mime|];
      }
    }
  }

  /** With no `;` in the payload, the marker after the mime type is the last one. */
  lemma OnlyMarkerAfterMime(mime: string, base64: string)
    requires mime != [] && base64 != [] && ';' !in base64
    ensures var rest := mime + Marker + base64;
            LastMarker(rest, |rest| - 9) == |mime|
  {
    var rest := mime + Marker + base64;
    assert rest[|mime|..|mime| + 8] == Marker;
    assert MarkerAt(rest, |mime|);
    var q := LastMarker(rest, |rest| - 9);
    assert rest[q] == ';' by {
      assert rest[q..q + 8][0] == Marker[0];
    }
    forall p | |mime| < p < |rest| ensures rest[p] != ';' {
      if p < |mime| + 8 {
        assert rest[p] == Marker[p - |mime|];
      } else {
        assert rest[p] == base64[p - |mime| - 8];
      }
    }
  }

  /** A GIF, which the strict parser refuses, passes the loose one. */
  lemma LooseAcceptsGif(base64: string)
    requires base64 != [] && ';' !in base64 && SingleLine(base64)
    ensures ParseDataUrlLoose(Format("image/gif", base64)) == Ok(DataUrl("image/gif", base64))
  {
    LooseAcceptsAnyMime("image/gif", base64);
  }

  /** The two parsers agree on the single-line URLs the strict one accepts whose payload
      holds no `;`. */
  lemma StrictImpliesLoose(raw: string)
    requires ParseDataUrl(raw).Ok? && SingleLine(raw)
    requires ';' !in ParseDataUrl(raw).value.base64
    ensures ParseDataUrlLoose(raw) == ParseDataUrl(raw)
  {
    var d := ParseDataUrl(raw).value;
    assert raw == Format(d.mimeType, d.base64) && d.mimeType != [] && d.base64 != [];
    forall i | 0 <= i < |d.mimeType| ensures !IsLineTerminator(d.mimeType[i]) {
      assert d.mimeType[i] == raw[5 + i];
    }
    forall i | 0 <= i < |d.base64| ensures !IsLineTerminator(d.base64[i]) {
      assert d.base64[i] == raw[13 + |d.mimeType| + i];
    }
    LooseAcceptsAnyMime(d.mimeType, d.base64);
  }
}
