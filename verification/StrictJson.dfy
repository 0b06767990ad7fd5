/**
 * The hand-written JSON reader in front of the conformance evaluator
 * (packages/pulse-conformance-evaluator/src/strict-json.ts), as a function from the input that is
 * left to a value and the input that then remains.  Text is a sequence of UTF-16 code units.
 */
module StrictJson {
  import opened Prelude

  type Unit = u: nat | u < 0x1_0000
  type Text = seq<Unit>

  /** A finite double other than negative zero, by its encoding; how one is read is a parameter. */
  type Double = nat
  datatype Numerals = Numerals(read: Text -> Option<Double>)

  datatype Json =
    | Null
    | Bool(flag: bool)
    | Num(number: Double)
    | Str(text: Text)
    | Arr(items: seq<Json>)
    | Obj(members: map<Text, Json>)

  datatype Failure = Syntax | Nesting | Surrogate | Duplicate(name: Text) | Forbidden

  datatype Outcome<T> = Ok(value: T) | Fail(failure: Failure)
  datatype Parsed<T> = Parsed(value: T, rest: Text) | Failed(failure: Failure)

  const QUOTE: Unit := 0x22
  const BACKSLASH: Unit := 0x5C
  const OPEN_BRACE: Unit := 0x7B
  const CLOSE_BRACE: Unit := 0x7D
  const OPEN_BRACKET: Unit := 0x5B
  const CLOSE_BRACKET: Unit := 0x5D
  const COLON: Unit := 0x3A
  const COMMA: Unit := 0x2C
  const MINUS: Unit := 0x2D
  const DOT: Unit := 0x2E
  const LETTER_U: Unit := 0x75
  const MAX_DEPTH := 100

  const TRUE: Text := [0x74, 0x72, 0x75, 0x65]
  const FALSE: Text := [0x66, 0x61, 0x6C, 0x73, 0x65]
  const NULL: Text := [0x6E, 0x75, 0x6C, 0x6C]

  predicate Starts(s: Text, c: Unit) { |s| > 0 && s[0] == c }

  // ----- white space

  predicate IsSpace(c: Unit) { c == 0x20 || c == 0x09 || c == 0x0D || c == 0x0A }

  function SkipSpace(s: Text): (r: Text)
    ensures |r| <= |s|
    decreases |s|
  {
    if |s| > 0 && IsSpace(s[0]) then SkipSpace(s[1..]) else s
  }

  // ----- strings

  /** Length of a string body, up to the first quote that no backslash hides. */
  function BodyLength(s: Text): (r: Option<nat>)
    ensures r.Some? ==> r.value < |s| && s[r.value] == QUOTE
    decreases |s|
  {
    if s == [] then None
    else if s[0] == QUOTE then Some(0)
    else
      var step := if s[0] == BACKSLASH then 2 else 1;
      if step > |s| then None
      else match BodyLength(s[step..])
        case None => None
        case Some(k) => Some(k + step)
  }

  predicate IsHex(c: Unit) {
    0x30 <= c <= 0x39 || 0x41 <= c <= 0x46 || 0x61 <= c <= 0x66
  }

  function HexDigit(c: Unit): (r: nat)
    requires IsHex(c)
    ensures r < 16
  {
    if c <= 0x39 then c - 0x30 else if c <= 0x46 then c - 0x37 else c - 0x57
  }

  function HexValue(d: Text): (r: Unit)
    requires |d| == 4 && forall i :: 0 <= i < 4 ==> IsHex(d[i])
  {
    0x1000 * HexDigit(d[0]) + 0x100 * HexDigit(d[1]) + 0x10 * HexDigit(d[2]) + HexDigit(d[3])
  }

  /** The two-character escapes of section 7 of RFC 8259. */
  function ShortEscape(c: Unit): Option<Unit> {
    if c == QUOTE || c == BACKSLASH || c == 0x2F then Some(c)
    else if c == 0x62 then Some(0x08)
    else if c == 0x66 then Some(0x0C)
    else if c == 0x6E then Some(0x0A)
    else if c == 0x72 then Some(0x0D)
    else if c == 0x74 then Some(0x09)
    else None
  }

  predicate IsPlain(c: Unit) { c >= 0x20 && c != QUOTE && c != BACKSLASH }

  predicate IsHexEscape(body: Text) {
    |body| >= 6 && body[1] == LETTER_U && forall i :: 2 <= i < 6 ==> IsHex(body[i])
  }

  /** What the platform's own parser makes of a quoted body: escapes and control characters. */
  function Decode(body: Text): Option<Text>
    decreases |body|
  {
    if body == [] then Some([])
    else if IsPlain(body[0]) then Prepend(body[0], Decode(body[1..]))
    else if body[0] != BACKSLASH || |body| < 2 then None
    else if ShortEscape(body[1]).Some? then Prepend(ShortEscape(body[1]).value, Decode(body[2..]))
    else if IsHexEscape(body) then Prepend(HexValue(body[2..6]), Decode(body[6..]))
    else None
  }

  function Prepend(c: Unit, tail: Option<Text>): Option<Text> {
    match tail
    case None => None
    case Some(t) => Some([c] + t)
  }

  predicate IsHigh(c: Unit) { 0xD800 <= c < 0xDC00 }
  predicate IsLow(c: Unit) { 0xDC00 <= c < 0xE000 }

  /** No surrogate code unit stands alone. */
  predicate WellFormed(s: Text)
    decreases |s|
  {
    if s == [] then true
    else if IsHigh(s[0]) then |s| >= 2 && IsLow(s[1]) && WellFormed(s[2..])
    else !IsLow(s[0]) && WellFormed(s[1..])
  }

  /** A string token; the input starts with its opening quote. */
  function ParseString(s: Text): (r: Parsed<Text>)
    requires Starts(s, QUOTE)
    ensures r.Parsed? ==> |r.rest| < |s|
  {
    match BodyLength(s[1..])
    case None => Failed(Syntax)
    case Some(k) =>
      match Decode(s[1..k + 1])
      case None => Failed(Syntax)
      case Some(value) => if WellFormed(value) then Parsed(value, s[k + 2..]) else Failed(Surrogate)
  }

  // ----- numbers

  predicate IsDigit(c: Unit) { 0x30 <= c <= 0x39 }
  predicate IsExponentLetter(c: Unit) { c == 0x65 || c == 0x45 }
  predicate IsSign(c: Unit) { c == 0x2B || c == MINUS }

  function DigitRun(s: Text): (r: nat)
    ensures r <= |s|
    decreases |s|
  {
    if |s| > 0 && IsDigit(s[0]) then 1 + DigitRun(s[1..]) else 0
  }

  function WholeLength(s: Text): (r: nat)
    ensures r <= |s|
  {
    if Starts(s, 0x30) then 1 else DigitRun(s)
  }

  function FractionLength(s: Text): (r: nat)
    ensures r <= |s|
  {
    if Starts(s, DOT) && DigitRun(s[1..]) > 0 then 1 + DigitRun(s[1..]) else 0
  }

  function ExponentLength(s: Text): (r: nat)
    ensures r <= |s|
  {
    if |s| == 0 || !IsExponentLetter(s[0]) then 0
    else
      var start := if |s| > 1 && IsSign(s[1]) then 2 else 1;
      if DigitRun(s[start..]) > 0 then start + DigitRun(s[start..]) else 0
  }

  /** Length of the longest number at the head of the input, as the source's pattern finds it. */
  function NumberLength(s: Text): (r: Option<nat>)
    ensures r.Some? ==> 0 < r.value <= |s|
  {
    var a := if Starts(s, MINUS) then 1 else 0;
    var b := a + WholeLength(s[a..]);
    if b == a then None
    else
      var c := b + FractionLength(s[b..]);
      Some(c + ExponentLength(s[c..]))
  }

  function ParseNumber(s: Text, nums: Numerals): (r: Parsed<Json>)
    ensures r.Parsed? ==> |r.rest| < |s|
  {
    match NumberLength(s)
    case None => Failed(Syntax)
    case Some(k) =>
      match nums.read(s[..k])
      case None => Failed(Syntax)
      case Some(n) => Parsed(Num(n), s[k..])
  }

  // ----- values

  function ParseScalar(s: Text, nums: Numerals): (r: Parsed<Json>)
    ensures r.Parsed? ==> |r.rest| < |s|
  {
    if TRUE <= s then Parsed(Bool(true), s[4..])
    else if FALSE <= s then Parsed(Bool(false), s[5..])
    else if NULL <= s then Parsed(Null, s[4..])
    else ParseNumber(s, nums)
  }

  function ParseValue(input: Text, depth: nat, nums: Numerals): (r: Parsed<Json>)
    ensures r.Parsed? ==> |r.rest| < |input|
    decreases |input|, 0
  {
    if depth > MAX_DEPTH then Failed(Nesting)
    else
      var s := SkipSpace(input);
      if Starts(s, QUOTE) then
        match ParseString(s)
        case Failed(f) => Failed(f)
        case Parsed(t, rest) => Parsed(Str(t), rest)
      else if Starts(s, OPEN_BRACE) then
        var inner := SkipSpace(s[1..]);
        if Starts(inner, CLOSE_BRACE) then Parsed(Obj(map[]), inner[1..])
        else ParseMembers(inner, depth, nums, map[])
      else if Starts(s, OPEN_BRACKET) then
        var inner := SkipSpace(s[1..]);
        if Starts(inner, CLOSE_BRACKET) then Parsed(Arr([]), inner[1..])
        else ParseItems(inner, depth, nums, [])
      else ParseScalar(s, nums)
  }

  /** The member loop: `done` holds the members read so far. */
  function ParseMembers(input: Text, depth: nat, nums: Numerals, done: map<Text, Json>): (r: Parsed<Json>)
    ensures r.Parsed? ==> |r.rest| < |input|
    decreases |input|, 0
  {
    var s := SkipSpace(input);
    if !Starts(s, QUOTE) then Failed(Syntax)
    else match ParseString(s)
      case Failed(f) => Failed(f)
      case Parsed(name, afterName) =>
        if name in done then Failed(Duplicate(name))
        else
          var colon := SkipSpace(afterName);
          if !Starts(colon, COLON) then Failed(Syntax)
          else match ParseValue(colon[1..], depth + 1, nums)
            case Failed(f) => Failed(f)
            case Parsed(value, afterValue) =>
              var next := SkipSpace(afterValue);
              if Starts(next, CLOSE_BRACE) then Parsed(Obj(done[name := value]), next[1..])
              else if Starts(next, COMMA) then ParseMembers(next[1..], depth, nums, done[name := value])
              else Failed(Syntax)
  }

  /** The item loop: `done` holds the items read so far. */
  function ParseItems(input: Text, depth: nat, nums: Numerals, done: seq<Json>): (r: Parsed<Json>)
    ensures r.Parsed? ==> |r.rest| < |input|
    decreases |input|, 1
  {
    if input == [] then Failed(Syntax)
    else match ParseValue(input, depth + 1, nums)
      case Failed(f) => Failed(f)
      case Parsed(value, afterValue) =>
        var next := SkipSpace(afterValue);
        if Starts(next, CLOSE_BRACKET) then Parsed(Arr(done + [value]), next[1..])
        else if Starts(next, COMMA) then ParseItems(next[1..], depth, nums, done + [value])
        else Failed(Syntax)
  }

  // ----- the second pass

  const EXPECTED: Text := [0x65, 0x78, 0x70, 0x65, 0x63, 0x74, 0x65, 0x64]
  const PROTO: Text := [0x5F, 0x5F, 0x70, 0x72, 0x6F, 0x74, 0x6F, 0x5F, 0x5F]
  const CONSTRUCTOR: Text := [0x63, 0x6F, 0x6E, 0x73, 0x74, 0x72, 0x75, 0x63, 0x74, 0x6F, 0x72]
  const PROTOTYPE: Text := [0x70, 0x72, 0x6F, 0x74, 0x6F, 0x74, 0x79, 0x70, 0x65]

  predicate KeyAllowed(name: Text, forbidExpected: bool) {
    && !(forbidExpected && name == EXPECTED)
    && name != PROTO && name != CONSTRUCTOR && name != PROTOTYPE
  }

  /** `assertJsonValue`: throws or not. */
  predicate IsInput(v: Json, forbidExpected: bool, depth: nat)
    decreases v
  {
    && depth <= MAX_DEPTH
    && match v {
         case Str(t) => WellFormed(t)
         case Arr(items) => forall i :: 0 <= i < |items| ==> IsInput(items[i], forbidExpected, depth + 1)
         case Obj(members) =>
           forall k :: k in members ==>
             && WellFormed(k) && KeyAllowed(k, forbidExpected)
             && IsInput(members[k], forbidExpected, depth + 1)
         case _ => true
       }
  }

  function ParseStrict(text: Text, forbidExpected: bool, nums: Numerals): Outcome<Json> {
    match ParseValue(text, 0, nums)
    case Failed(f) => Fail(f)
    case Parsed(value, rest) =>
      if SkipSpace(rest) != [] then Fail(Syntax)
      else if IsInput(value, forbidExpected, 0) then Ok(value)
      else Fail(Forbidden)
  }
}
