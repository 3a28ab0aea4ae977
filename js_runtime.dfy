/** The parts of the JavaScript runtime that the two image-analysis handlers lean on:
    dynamically typed values, the `Number()` and `String()` conversions, truthiness,
    `Math.round`, and the string built-ins `indexOf`, `lastIndexOf`, `startsWith`,
    `split`, `join` and `trim`. */
module JsRuntime {

  datatype Option<T> = None | Some(value: T)
  {
    function GetOr(default: T): T
    {
      match this
      case Some(v) => v
      case None => default
    }
  }

  datatype Result<T, E> = Ok(value: T) | Err(error: E)

  /** A JavaScript value as `JSON.parse` or a request body produces it. Numbers are
      mathematical reals (no rounding, no infinities); NaN is a value of its own. */
  datatype JsValue =
    | Undefined
    | Null
    | Bool(b: bool)
    | Num(n: real)
    | NaN
    | Str(s: string)
    | Arr(items: seq<JsValue>)
    | Obj(fields: map<string, JsValue>)

  /** The classes of the exceptions that can reach a handler's catch block. The first
      three are the handler's own subclasses of `Error`. */
  datatype ErrorClass = AuthError | ValidationError | UpstreamError | SyntaxError | TypeError | GenericError

  datatype Exception = Exception(cls: ErrorClass, message: string)

  /** The outcome of `JSON.parse`, which is an oracle everywhere in this model. */
  datatype ParseOutcome = Parsed(value: JsValue) | Unparsable(message: string)

  /** `JSON.parse` rethrows its failure as a `SyntaxError`. */
  function ParseResult(p: ParseOutcome): (r: Result<JsValue, Exception>)
    ensures r.Ok? <==> p.Parsed?
    ensures r.Err? ==> r.error == Exception(SyntaxError, p.message)
    ensures r.Ok? ==> r.value == p.value
  {
    match p
    case Parsed(v) => Ok(v)
    case Unparsable(m) => Err(Exception(SyntaxError, m))
  }

  function Max(a: int, b: int): int { if a < b then b else a }
  function Min(a: int, b: int): int { if a < b then a else b }

  /* ------------------------------------------------------------------ */
  /*  Truthiness and conversions                                         */
  /* ------------------------------------------------------------------ */

  /** `Boolean(v)`: false exactly for undefined, null, false, 0, NaN and "". */
  predicate Truthy(v: JsValue)
  {
    match v
    case Undefined => false
    case Null => false
    case NaN => false
    case Bool(b) => b
    case Num(n) => n != 0.0
    case Str(s) => s != []
    case Arr(_) => true
    case Obj(_) => true
  }

  /** `Math.round`: the nearest whole number, halves rounded up. */
  function Round(x: real): (k: int)
    ensures k as real - 0.5 <= x < k as real + 0.5
  {
    (x + 0.5).Floor
  }

  function Digit(d: int): char
    requires 0 <= d < 10
  {
    "0123456789"[d]
  }

  predicate IsDigit(c: char) { '0' <= c <= '9' }

  function NatToString(n: nat): (s: string)
    ensures |s| >= 1
    ensures forall i :: 0 <= i < |s| ==> IsDigit(s[i])
  {
    if n < 10 then [Digit(n)] else NatToString(n / 10) + [Digit(n % 10)]
  }

  /** Decimal text of an integer, as `String(n)` writes it. */
  function IntToString(n: int): string
  {
    if n < 0 then "-" + NatToString(-n) else NatToString(n)
  }

  /** The first `fuel` digits of the decimal expansion of a fraction in [0, 1),
      without trailing zeros when the expansion ends earlier. */
  function FractionDigits(f: real, fuel: nat): string
    requires 0.0 <= f < 1.0
    decreases fuel
  {
    if f == 0.0 || fuel == 0 then []
    else
      var d := (f * 10.0).Floor;
      [Digit(d)] + FractionDigits(f * 10.0 - d as real, fuel - 1)
  }

  /** `String(x)` for a number: integers in plain decimal, other values with up to
      twenty fractional digits. */
  function NumberToString(x: real): string
  {
    if x == x.Floor as real then IntToString(x.Floor)
    else if x < 0.0 then "-" + IntToString((-x).Floor) + "." + FractionDigits(-x - (-x).Floor as real, 20)
    else IntToString(x.Floor) + "." + FractionDigits(x - x.Floor as real, 20)
  }

  /** `parts.join(sep)`. */
  function Join(parts: seq<string>, sep: char): string
  {
    if |parts| == 0 then []
    else if |parts| == 1 then parts[0]
    else parts[0] + [sep] + Join(parts[1..], sep)
  }

  /** A value that `String(v)` and `Number(v)` refuse with a TypeError: an object with
      a `toString` key of its own (JSON cannot make it callable, so the conversion
      finds no method that yields a primitive), or an array holding such a value at any
      depth, since an array converts through the conversion of its elements. */
  predicate Unprintable(v: JsValue)
  {
    match v
    case Obj(fields) => "toString" in fields
    case Arr(items) => exists i :: 0 <= i < |items| && Unprintable(items[i])
    case _ => false
  }

  const ToPrimitiveMessage := "Cannot convert object to primitive value"

  /** `String(v)` for a value that is not unprintable. An array is the comma-join of
      its elements, with null and undefined elements written as empty text. */
  function ToJsString(v: JsValue): string
  {
    match v
    case Undefined => "undefined"
    case Null => "null"
    case NaN => "NaN"
    case Bool(b) => if b then "true" else "false"
    case Num(n) => NumberToString(n)
    case Str(s) => s
    case Arr(items) =>
      Join(seq(|items|, i requires 0 <= i < |items| =>
             if items[i].Null? || items[i].Undefined? then [] else ToJsString(items[i])), ',')
    case Obj(_) => "[object Object]"
  }

  function DigitsValue(ds: string): nat
    requires forall i :: 0 <= i < |ds| ==> IsDigit(ds[i])
  {
    if ds == [] then 0
    else
      assert IsDigit(ds[|ds| - 1]);
      DigitsValue(ds[..|ds| - 1]) * 10 + (ds[|ds| - 1] as int - '0' as int)
  }

  function Pow10(k: nat): (p: nat)
    ensures p >= 1
  {
    if k == 0 then 1 else 10 * Pow10(k - 1)
  }

  predicate AllDigits(s: string) { forall i :: 0 <= i < |s| ==> IsDigit(s[i]) }

  /** An unsigned decimal literal `ddd`, `ddd.ddd`, `ddd.` or `.ddd`. */
  function UnsignedDecimal(u: string): Option<real>
  {
    var dot := IndexOf(u, '.');
    if dot < 0 then
      if u != [] && AllDigits(u) then Some(DigitsValue(u) as real) else None
    else
      var whole, frac := u[..dot], u[dot + 1..];
      if (whole != [] || frac != []) && AllDigits(whole) && AllDigits(frac)
      then Some(DigitsValue(whole) as real + DigitsValue(frac) as real / Pow10(|frac|) as real)
      else None
  }

  /** `Number(s)` for a string: surrounding white space is ignored, empty text is 0,
      a signed decimal literal is its value, anything else is NaN (None). */
  function StringToNumber(s: string): Option<real>
  {
    var t := Trim(s);
    if t == [] then Some(0.0)
    else if t[0] == '-' then
      match UnsignedDecimal(t[1..])
      case Some(x) => Some(-x)
      case None => None
    else if t[0] == '+' then UnsignedDecimal(t[1..])
    else UnsignedDecimal(t)
  }

  /** `Number(v)` for a value that is not unprintable; None stands for NaN. Arrays and
      objects convert through `String(v)`. */
  function ToNumber(v: JsValue): Option<real>
  {
    match v
    case Undefined => None
    case Null => Some(0.0)
    case NaN => None
    case Bool(b) => Some(if b then 1.0 else 0.0)
    case Num(n) => Some(n)
    case Str(s) => StringToNumber(s)
    case Arr(_) => StringToNumber(ToJsString(v))
    case Obj(_) => StringToNumber(ToJsString(v))
  }

  /** `v.key` for a value that is not null or undefined: an object's own field, and
      undefined for every other value. */
  function Field(v: JsValue, key: string): JsValue
  {
    if v.Obj? && key in v.fields then v.fields[key] else Undefined
  }

  /* ------------------------------------------------------------------ */
  /*  String built-ins                                                   */
  /* ------------------------------------------------------------------ */

  /** `s.indexOf(c)`: the first position of `c`, or -1. */
  function IndexOf(s: string, c: char): (i: int)
    ensures -1 <= i < |s|
    ensures i == -1 <==> c !in s
    ensures 0 <= i ==> s[i] == c && forall k :: 0 <= k < i ==> s[k] != c
  {
    if s == [] then -1
    else if s[0] == c then 0
    else
      var j := IndexOf(s[1..], c);
      if j == -1 then -1 else j + 1
  }

  /** `s.lastIndexOf(c)`: the last position of `c`, or -1. */
  function LastIndexOf(s: string, c: char): (i: int)
    ensures -1 <= i < |s|
    ensures i == -1 <==> c !in s
    ensures 0 <= i ==> s[i] == c && forall k :: i < k < |s| ==> s[k] != c
  {
    if s == [] then -1
    else if s[|s| - 1] == c then |s| - 1
    else
      var j := LastIndexOf(s[..|s| - 1], c);
      assert s == s[..|s| - 1] + [s[|s| - 1]];
      j
  }

  predicate StartsWith(s: string, prefix: string)
  {
    |prefix| <= |s| && s[..|prefix|] == prefix
  }

  /** Number of occurrences of `c` in `s`. */
  function Count(s: string, c: char): nat
  {
    if s == [] then 0 else (if s[0] == c then 1 else 0) + Count(s[1..], c)
  }

  /** `s.split(sep)` for a one-character separator: the pieces between the
      separators, which join back to `s`. */
  function Split(s: string, sep: char): (parts: seq<string>)
    ensures |parts| == Count(s, sep) + 1
    ensures forall i :: 0 <= i < |parts| ==> sep !in parts[i]
    ensures Join(parts, sep) == s
  {
    if s == [] then [[]]
    else
      var rest := Split(s[1..], sep);
      if s[0] == sep then
        assert ([[]] + rest)[1..] == rest;
        [[]] + rest
      else
        var first := [s[0]] + rest[0];
        assert sep !in first;
        assert ([first] + rest[1..])[1..] == rest[1..];
        assert s == [s[0]] + s[1..];
        [first] + rest[1..]
  }

  /** The position in `s` of the `n`-th occurrence of `c`, or `|s|` when there are
      fewer: the prefix `s[..k]` is the text before the `n`-th separator. */
  function CutIndex(s: string, c: char, n: nat): (k: nat)
    requires n >= 1
    ensures k <= |s|
    ensures k < |s| ==> s[k] == c
    ensures Count(s[..k], c) == Min(n - 1, Count(s, c))
  {
    if s == [] then 0
    else if s[0] == c && n == 1 then 0
    else
      var k := CutIndex(s[1..], c, if s[0] == c then n - 1 else n);
      assert s[..k + 1][1..] == s[1..][..k];
      k + 1
  }

  /** Keeping the first `n` pieces of a split and joining them again gives the text
      before the `n`-th separator (`parts.slice(0, n).join(sep)`). */
  lemma {:induction false} JoinFirstPieces(s: string, sep: char, n: nat)
    requires n >= 1
    ensures var parts := Split(s, sep);
            Join(parts[..Min(n, |parts|)], sep) == s[..CutIndex(s, sep, n)]
  {
    if s != [] {
      var rest := Split(s[1..], sep);
      if s[0] == sep {
        if n > 1 {
          JoinFirstPieces(s[1..], sep, n - 1);
          SeparatorFirst(s, sep, n);
        }
      } else {
        JoinFirstPieces(s[1..], sep, n);
        OtherFirst(s, sep, n);
      }
    }
  }

  /** One step of JoinFirstPieces when `s` starts with the separator. */
  lemma SeparatorFirst(s: string, sep: char, n: nat)
    requires s != [] && s[0] == sep && n > 1
    requires var rest := Split(s[1..], sep);
             Join(rest[..Min(n - 1, |rest|)], sep) == s[1..][..CutIndex(s[1..], sep, n - 1)]
    ensures var parts := Split(s, sep);
            Join(parts[..Min(n, |parts|)], sep) == s[..CutIndex(s, sep, n)]
  {
    var parts, rest := Split(s, sep), Split(s[1..], sep);
    var k := CutIndex(s[1..], sep, n - 1);
    var m := Min(n - 1, |rest|);
    assert parts == [[]] + rest;
    assert Min(n, |parts|) == m + 1;
    assert parts[..m + 1] == [[]] + rest[..m];
    JoinCons([], rest[..m], sep);
    assert CutIndex(s, sep, n) == k + 1;
    assert s[..k + 1] == [sep] + s[1..][..k];
    calc {
      Join(parts[..m + 1], sep);
      [] + [sep] + Join(rest[..m], sep);
      [sep] + s[1..][..k];
    }
  }

  /** One step of JoinFirstPieces when `s` starts with another character. */
  lemma OtherFirst(s: string, sep: char, n: nat)
    requires s != [] && s[0] != sep && n >= 1
    requires var rest := Split(s[1..], sep);
             Join(rest[..Min(n, |rest|)], sep) == s[1..][..CutIndex(s[1..], sep, n)]
    ensures var parts := Split(s, sep);
            Join(parts[..Min(n, |parts|)], sep) == s[..CutIndex(s, sep, n)]
  {
    var parts, rest := Split(s, sep), Split(s[1..], sep);
    var k := CutIndex(s[1..], sep, n);
    var m := Min(n, |rest|);
    assert parts == [[s[0]] + rest[0]] + rest[1..];
    assert parts[..m] == [[s[0]] + rest[..m][0]] + rest[..m][1..];
    JoinConsFirst(s[0], rest[..m], sep);
    assert s[..k + 1] == [s[0]] + s[1..][..k];
  }

  /** Joining a piece in front of at least one other piece. */
  lemma JoinCons(p: string, ps: seq<string>, sep: char)
    requires |ps| >= 1
    ensures Join([p] + ps, sep) == p + [sep] + Join(ps, sep)
  {
    assert ([p] + ps)[1..] == ps;
  }

  /** Prepending a character to the first piece prepends it to the joined text. */
  lemma JoinConsFirst(x: char, parts: seq<string>, sep: char)
    requires |parts| >= 1
    ensures Join([[x] + parts[0]] + parts[1..], sep) == [x] + Join(parts, sep)
  {
    var ps := [[x] + parts[0]] + parts[1..];
    if |parts| > 1 {
      assert ps[1..] == parts[1..];
    }
  }

  /* ------------------------------------------------------------------ */
  /*  White space and trim                                               */
  /* ------------------------------------------------------------------ */

  /** ECMAScript WhiteSpace and LineTerminator characters, the set `trim` removes. */
  predicate IsWhiteSpace(c: char)
  {
    c == '\t' || c == '\n' || c == '\U{B}' || c == '\U{C}' || c == '\r' || c == ' '
    || c == '\U{A0}' || c == '\U{1680}' || ('\U{2000}' <= c <= '\U{200A}')
    || c == '\U{2028}' || c == '\U{2029}' || c == '\U{202F}' || c == '\U{205F}'
    || c == '\U{3000}' || c == '\U{FEFF}'
  }

  /** Number of white-space characters at the start of `s`. */
  function LeadingSpace(s: string): (k: nat)
    ensures k <= |s|
    ensures forall i :: 0 <= i < k ==> IsWhiteSpace(s[i])
    ensures k < |s| ==> !IsWhiteSpace(s[k])
  {
    if s != [] && IsWhiteSpace(s[0]) then 1 + LeadingSpace(s[1..]) else 0
  }

  /** Position where the white space at the end of `s` begins. */
  function TrailingStart(s: string): (k: nat)
    ensures k <= |s|
    ensures forall i :: k <= i < |s| ==> IsWhiteSpace(s[i])
    ensures 0 < k ==> !IsWhiteSpace(s[k - 1])
  {
    if s != [] && IsWhiteSpace(s[|s| - 1]) then TrailingStart(s[..|s| - 1]) else |s|
  }

  /** `s.trim()`. */
  function Trim(s: string): (t: string)
    ensures t == [] || (!IsWhiteSpace(t[0]) && !IsWhiteSpace(t[|t| - 1]))
    ensures forall c :: c in t ==> c in s
  {
    var a, b := LeadingSpace(s), TrailingStart(s);
    if a < b then s[a..b] else []
  }
}
