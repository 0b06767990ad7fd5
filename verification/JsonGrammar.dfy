/**
 * The grammar of RFC 8259, sections 2 to 7, as derivation trees, and the two directions between it
 * and the reader: what the reader accepts has a derivation, and every admitted text is accepted.
 */
module JsonGrammar {
  import opened Prelude
  import opened StrictJson

  /** One character of a string: itself, a two-character escape, or a four-digit one. */
  datatype Piece = Plain(unit: Unit) | Short(letter: Unit) | Hex(digits: Text)

  datatype Exponent = NoExponent | Exponent(letter: Unit, sign: Text, digits: Text)

  /** An empty `fraction` is an absent one. */
  datatype Number = Number(minus: bool, whole: Text, fraction: Text, exponent: Exponent)

  datatype Tree =
    | NullTree
    | TrueTree
    | FalseTree
    | NumberTree(number: Number)
    | StringTree(pieces: seq<Piece>)
    | EmptyArray(gap: Text)
    | Array(items: Items)
    | EmptyObject(gap: Text)
    | Object(members: Members)

  datatype Items =
    | LastItem(lead: Text, item: Tree, trail: Text)
    | MoreItems(lead: Text, item: Tree, trail: Text, tail: Items)

  datatype Members =
    | LastMember(member: Member)
    | MoreMembers(member: Member, tail: Members)

  datatype Member = Member(lead: Text, name: seq<Piece>, gap: Text, valueLead: Text, value: Tree, trail: Text)

  // ----- shapes

  predicate Spaces(s: Text) { forall i :: 0 <= i < |s| ==> IsSpace(s[i]) }
  predicate Digits(s: Text) { forall i :: 0 <= i < |s| ==> IsDigit(s[i]) }

  predicate IsPiece(p: Piece) {
    match p
    case Plain(u) => IsPlain(u)
    case Short(c) => ShortEscape(c).Some?
    case Hex(d) => |d| == 4 && forall i :: 0 <= i < 4 ==> IsHex(d[i])
  }

  predicate ArePieces(ps: seq<Piece>) { forall i :: 0 <= i < |ps| ==> IsPiece(ps[i]) }

  function PieceValue(p: Piece): Unit
    requires IsPiece(p)
  {
    match p
    case Plain(u) => u
    case Short(c) => ShortEscape(c).value
    case Hex(d) => HexValue(d)
  }

  function StringValue(ps: seq<Piece>): Text
    requires ArePieces(ps)
    decreases |ps|
  {
    if ps == [] then [] else [PieceValue(ps[0])] + StringValue(ps[1..])
  }

  predicate IsNumber(n: Number) {
    && Digits(n.whole) && n.whole != [] && (n.whole[0] == 0x30 ==> |n.whole| == 1)
    && Digits(n.fraction)
    && match n.exponent {
         case NoExponent => true
         case Exponent(letter, sign, digits) =>
           && IsExponentLetter(letter)
           && (sign == [] || (|sign| == 1 && IsSign(sign[0])))
           && digits != [] && Digits(digits)
       }
  }

  // ----- the text of a derivation, followed by `rest`

  function EmitPiece(p: Piece, rest: Text): Text {
    match p
    case Plain(u) => [u] + rest
    case Short(c) => [BACKSLASH, c] + rest
    case Hex(d) => [BACKSLASH, LETTER_U] + (d + rest)
  }

  function EmitPieces(ps: seq<Piece>, rest: Text): Text
    decreases |ps|
  {
    if ps == [] then rest else EmitPiece(ps[0], EmitPieces(ps[1..], rest))
  }

  function EmitString(ps: seq<Piece>, rest: Text): Text {
    [QUOTE] + EmitPieces(ps, [QUOTE] + rest)
  }

  function EmitExponent(e: Exponent, rest: Text): Text {
    match e
    case NoExponent => rest
    case Exponent(letter, sign, digits) => [letter] + (sign + (digits + rest))
  }

  function EmitFraction(f: Text, rest: Text): Text {
    if f == [] then rest else [DOT] + (f + rest)
  }

  function EmitNumber(n: Number, rest: Text): Text {
    (if n.minus then [MINUS] else []) + (n.whole + EmitFraction(n.fraction, EmitExponent(n.exponent, rest)))
  }

  function Emit(t: Tree, rest: Text): Text
    decreases t
  {
    match t
    case NullTree => NULL + rest
    case TrueTree => TRUE + rest
    case FalseTree => FALSE + rest
    case NumberTree(n) => EmitNumber(n, rest)
    case StringTree(ps) => EmitString(ps, rest)
    case EmptyArray(gap) => [OPEN_BRACKET] + (gap + ([CLOSE_BRACKET] + rest))
    case Array(items) => [OPEN_BRACKET] + EmitItems(items, rest)
    case EmptyObject(gap) => [OPEN_BRACE] + (gap + ([CLOSE_BRACE] + rest))
    case Object(members) => [OPEN_BRACE] + EmitMembers(members, rest)
  }

  function EmitItems(items: Items, rest: Text): Text
    decreases items
  {
    match items
    case LastItem(lead, item, trail) => lead + Emit(item, trail + ([CLOSE_BRACKET] + rest))
    case MoreItems(lead, item, trail, tail) => lead + Emit(item, trail + ([COMMA] + EmitItems(tail, rest)))
  }

  function EmitMembers(members: Members, rest: Text): Text
    decreases members
  {
    match members
    case LastMember(m) => EmitMember(m, [CLOSE_BRACE] + rest)
    case MoreMembers(m, tail) => EmitMember(m, [COMMA] + EmitMembers(tail, rest))
  }

  function EmitMember(m: Member, rest: Text): Text
    decreases m
  {
    m.lead + EmitString(m.name, m.gap + ([COLON] + (m.valueLead + Emit(m.value, m.trail + rest))))
  }

  // ----- what the reader promises to accept, and as what

  /** Grammatical, nested at most MAX_DEPTH deep, well-formed Unicode, finite numbers, and pairwise
      distinct decoded member names. */
  predicate Admitted(t: Tree, depth: nat, nums: Numerals)
    decreases t
  {
    && depth <= MAX_DEPTH
    && match t {
         case NullTree => true
         case TrueTree => true
         case FalseTree => true
         case NumberTree(n) => IsNumber(n) && nums.read(EmitNumber(n, [])).Some?
         case StringTree(ps) => ArePieces(ps) && WellFormed(StringValue(ps))
         case EmptyArray(gap) => Spaces(gap)
         case Array(items) => AdmittedItems(items, depth, nums)
         case EmptyObject(gap) => Spaces(gap)
         case Object(members) => AdmittedMembers(members, {}, depth, nums)
       }
  }

  predicate AdmittedItems(items: Items, depth: nat, nums: Numerals)
    decreases items
  {
    && Spaces(items.lead) && Spaces(items.trail) && Admitted(items.item, depth + 1, nums)
    && (items.MoreItems? ==> AdmittedItems(items.tail, depth, nums))
  }

  /** `used` holds the names to the left. */
  predicate AdmittedMembers(members: Members, used: set<Text>, depth: nat, nums: Numerals)
    decreases members
  {
    && AdmittedMember(members.member, depth, nums)
    && ArePieces(members.member.name) && WellFormed(StringValue(members.member.name))
    && StringValue(members.member.name) !in used
    && (members.MoreMembers? ==>
          AdmittedMembers(members.tail, used + {StringValue(members.member.name)}, depth, nums))
  }

  predicate AdmittedMember(m: Member, depth: nat, nums: Numerals)
    decreases m
  {
    && Spaces(m.lead) && Spaces(m.gap) && Spaces(m.valueLead) && Spaces(m.trail)
    && Admitted(m.value, depth + 1, nums)
  }

  function Meaning(t: Tree, depth: nat, nums: Numerals): Json
    requires Admitted(t, depth, nums)
    decreases t
  {
    match t
    case NullTree => Null
    case TrueTree => Bool(true)
    case FalseTree => Bool(false)
    case NumberTree(n) => Num(nums.read(EmitNumber(n, [])).value)
    case StringTree(ps) => Str(StringValue(ps))
    case EmptyArray(_) => Arr([])
    case Array(items) => Arr(ItemValues(items, depth, nums))
    case EmptyObject(_) => Obj(map[])
    case Object(members) => Obj(MemberValues(members, {}, depth, nums))
  }

  function ItemValues(items: Items, depth: nat, nums: Numerals): seq<Json>
    requires AdmittedItems(items, depth, nums)
    decreases items
  {
    [Meaning(items.item, depth + 1, nums)] +
    if items.MoreItems? then ItemValues(items.tail, depth, nums) else []
  }

  function MemberValues(members: Members, used: set<Text>, depth: nat, nums: Numerals): map<Text, Json>
    requires AdmittedMembers(members, used, depth, nums)
    decreases members
  {
    var name := StringValue(members.member.name);
    map[name := MemberValue(members.member, depth, nums)] +
    if members.MoreMembers? then MemberValues(members.tail, used + {name}, depth, nums) else map[]
  }

  function MemberValue(m: Member, depth: nat, nums: Numerals): Json
    requires AdmittedMember(m, depth, nums)
    decreases m
  {
    Meaning(m.value, depth + 1, nums)
  }

  // ----- white space, strings and numbers

  lemma {:induction false} SpaceSkips(gap: Text, s: Text)
    requires Spaces(gap) && (s == [] || !IsSpace(s[0]))
    ensures SkipSpace(gap + s) == s
    decreases |gap|
  {
    if gap == [] {
      assert gap + s == s;
    } else {
      assert (gap + s)[1..] == gap[1..] + s;
      SpaceSkips(gap[1..], s);
    }
  }

  lemma {:induction false} SkippedSpace(s: Text) returns (gap: Text)
    ensures Spaces(gap) && s == gap + SkipSpace(s)
    ensures SkipSpace(s) == [] || !IsSpace(SkipSpace(s)[0])
    decreases |s|
  {
    if |s| > 0 && IsSpace(s[0]) {
      var tail := SkippedSpace(s[1..]);
      gap := [s[0]] + tail;
    } else {
      gap := [];
    }
  }

  lemma {:induction false} PiecesAppend(ps: seq<Piece>, rest: Text)
    ensures EmitPieces(ps, rest) == EmitPieces(ps, []) + rest
    decreases |ps|
  {
    if ps != [] { PiecesAppend(ps[1..], rest); }
  }

  lemma {:induction false} BodyEnds(ps: seq<Piece>, rest: Text)
    requires ArePieces(ps)
    ensures BodyLength(EmitPieces(ps, [QUOTE] + rest)) == Some(|EmitPieces(ps, [])|)
    decreases |ps|
  {
    if ps != [] {
      BodyEnds(ps[1..], rest);
      var tail := EmitPieces(ps[1..], [QUOTE] + rest);
      var s := EmitPieces(ps, [QUOTE] + rest);
      match ps[0]
      case Plain(_) => assert s[1..] == tail;
      case Short(_) => assert s[2..] == tail;
      case Hex(d) => HexSkips(d, tail);
    }
  }

  lemma HexSkips(d: Text, tail: Text)
    requires IsPiece(Hex(d)) && BodyLength(tail).Some?
    ensures BodyLength([BACKSLASH, LETTER_U] + (d + tail)) == Some(6 + BodyLength(tail).value)
  {
    RunSkips(d, tail);
    assert ([BACKSLASH, LETTER_U] + (d + tail))[2..] == d + tail;
  }

  lemma {:induction false} RunSkips(d: Text, tail: Text)
    requires forall i :: 0 <= i < |d| ==> d[i] != QUOTE && d[i] != BACKSLASH
    requires BodyLength(tail).Some?
    ensures BodyLength(d + tail) == Some(|d| + BodyLength(tail).value)
    decreases |d|
  {
    if d == [] {
      assert d + tail == tail;
    } else {
      RunSkips(d[1..], tail);
      assert (d + tail)[1..] == d[1..] + tail;
    }
  }

  lemma {:induction false} PiecesDecode(ps: seq<Piece>)
    requires ArePieces(ps)
    ensures Decode(EmitPieces(ps, [])) == Some(StringValue(ps))
    decreases |ps|
  {
    if ps != [] {
      PiecesDecode(ps[1..]);
      var s := EmitPieces(ps, []);
      match ps[0]
      case Plain(_) => assert s[1..] == EmitPieces(ps[1..], []);
      case Short(_) => assert s[2..] == EmitPieces(ps[1..], []);
      case Hex(d) =>
        assert s[2..6] == d && s[6..] == EmitPieces(ps[1..], []);
        assert forall i :: 2 <= i < 6 ==> s[i] == d[i - 2];
    }
  }

  lemma {:induction false} DecodedPieces(body: Text) returns (ps: seq<Piece>)
    requires Decode(body).Some?
    ensures ArePieces(ps) && EmitPieces(ps, []) == body && StringValue(ps) == Decode(body).value
    decreases |body|
  {
    if body == [] {
      ps := [];
    } else {
      var p: Piece;
      var n: nat;
      if IsPlain(body[0]) {
        p, n := Plain(body[0]), 1;
      } else if ShortEscape(body[1]).Some? {
        p, n := Short(body[1]), 2;
      } else {
        p, n := Hex(body[2..6]), 6;
        assert body[..6] == [BACKSLASH, LETTER_U] + body[2..6];
      }
      var tail := DecodedPieces(body[n..]);
      ps := [p] + tail;
      assert ps[1..] == tail;
      assert EmitPiece(p, body[n..]) == body;
    }
  }

  lemma Slices(a: Text, b: Text)
    ensures (a + b)[|a|..] == b && (a + b)[..|a|] == a
  {
  }

  lemma StringAccepted(ps: seq<Piece>, rest: Text)
    requires ArePieces(ps) && WellFormed(StringValue(ps))
    ensures ParseString(EmitString(ps, rest)) == Parsed(StringValue(ps), rest)
  {
    hide EmitPieces, BodyLength, Decode, WellFormed, StringValue;
    var s := EmitString(ps, rest);
    var body := EmitPieces(ps, []);
    BodyEnds(ps, rest);
    PiecesAppend(ps, [QUOTE] + rest);
    PiecesDecode(ps);
    Slices([QUOTE], body + ([QUOTE] + rest));
    Slices(body, [QUOTE] + rest);
    Slices([QUOTE] + body + [QUOTE], rest);
    assert s == [QUOTE] + body + [QUOTE] + rest;
    assert s[1..|body| + 1] == s[1..][..|body|];
  }

  lemma AcceptedString(s: Text) returns (ps: seq<Piece>)
    requires Starts(s, QUOTE) && ParseString(s).Parsed?
    ensures ArePieces(ps) && WellFormed(StringValue(ps))
    ensures s == EmitString(ps, ParseString(s).rest) && StringValue(ps) == ParseString(s).value
  {
    var k := BodyLength(s[1..]).value;
    assert s[1..][k] == s[k + 1] && s[1..k + 1] == s[1..][..k];
    ps := DecodedPieces(s[1..k + 1]);
    PiecesAppend(ps, [QUOTE] + s[k + 2..]);
    hide EmitPieces, BodyLength, Decode, WellFormed, StringValue;
    Quotes(s, k);
  }

  lemma Quotes(s: Text, k: nat)
    requires k + 2 <= |s| && s[0] == QUOTE == s[k + 1]
    ensures s == [QUOTE] + (s[1..k + 1] + ([QUOTE] + s[k + 2..]))
  {
  }

  lemma {:induction false} RunOfDigits(d: Text, rest: Text)
    requires Digits(d) && (rest == [] || !IsDigit(rest[0]))
    ensures DigitRun(d + rest) == |d|
    decreases |d|
  {
    if d == [] {
      assert d + rest == rest;
    } else {
      assert (d + rest)[1..] == d[1..] + rest;
      RunOfDigits(d[1..], rest);
    }
  }

  lemma {:induction false} DigitsOfRun(s: Text)
    ensures Digits(s[..DigitRun(s)])
    decreases |s|
  {
    if |s| > 0 && IsDigit(s[0]) {
      DigitsOfRun(s[1..]);
      assert s[..DigitRun(s)] == [s[0]] + s[1..][..DigitRun(s[1..])];
    }
  }

  /** What may follow a number without lengthening it. */
  predicate Delimited(rest: Text) {
    rest == [] || (!IsDigit(rest[0]) && rest[0] != DOT && !IsExponentLetter(rest[0]))
  }

  lemma NumberAccepted(n: Number, rest: Text)
    requires IsNumber(n) && Delimited(rest)
    ensures NumberLength(EmitNumber(n, rest)) == Some(|EmitNumber(n, [])|)
    ensures EmitNumber(n, rest) == EmitNumber(n, []) + rest
  {
    var e := EmitExponent(n.exponent, rest);
    var f := EmitFraction(n.fraction, e);
    ExponentAccepted(n.exponent, rest);
    FractionAccepted(n.fraction, e);
    WholeAccepted(n.whole, f);
    NumberPrefix(n, rest);
    NumberSplits(n, rest, e, f);
  }

  lemma WholeAccepted(whole: Text, f: Text)
    requires Digits(whole) && whole != [] && (whole[0] == 0x30 ==> |whole| == 1)
    requires f == [] || !IsDigit(f[0])
    ensures WholeLength(whole + f) == |whole|
  {
    RunOfDigits(whole, f);
  }

  lemma NumberSplits(n: Number, rest: Text, e: Text, f: Text)
    requires n.whole != [] && IsDigit(n.whole[0])
    requires e == EmitExponent(n.exponent, rest) && f == EmitFraction(n.fraction, e)
    requires WholeLength(n.whole + f) == |n.whole|
    requires FractionLength(f) == |EmitFraction(n.fraction, [])| && f[FractionLength(f)..] == e
    requires ExponentLength(e) == |EmitExponent(n.exponent, [])|
    ensures NumberLength(EmitNumber(n, rest)) == Some(|EmitNumber(n, [])|)
  {
    var sign := if n.minus then [MINUS] else [];
    EmptyRest(n.fraction, EmitExponent(n.exponent, []));
    hide WholeLength, FractionLength, ExponentLength, EmitExponent, EmitFraction;
    var s := EmitNumber(n, rest);
    var a := |sign|;
    var b := a + |n.whole|;
    var c := b + FractionLength(f);
    assert s == sign + (n.whole + f);
    Slices(sign, n.whole + f);
    Slices(sign + n.whole, f);
    assert s == sign + n.whole + f;
    assert s[b..][FractionLength(f)..] == s[c..];
    assert n.minus <==> Starts(s, MINUS);
  }

  lemma EmptyRest(f: Text, rest: Text)
    ensures |EmitFraction(f, rest)| == |EmitFraction(f, [])| + |rest|
  {
  }

  lemma {:induction false} ExponentAccepted(e: Exponent, rest: Text)
    requires Delimited(rest)
    requires e.Exponent? ==> IsNumber(Number(false, [0x30], [], e))
    ensures ExponentLength(EmitExponent(e, rest)) == |EmitExponent(e, [])|
    ensures EmitExponent(e, rest) == [] || (!IsDigit(EmitExponent(e, rest)[0]) && EmitExponent(e, rest)[0] != DOT)
  {
    match e
    case NoExponent =>
    case Exponent(letter, sign, digits) =>
      RunOfDigits(digits, rest);
      hide DigitRun;
      var tail := digits + rest;
      var s := [letter] + (sign + tail);
      assert tail[0] == digits[0];
      if sign == [] {
        assert s == [letter] + tail;
        Slices([letter], tail);
      } else {
        assert s == [letter, sign[0]] + tail;
        Slices([letter, sign[0]], tail);
      }
  }

  lemma FractionAccepted(f: Text, rest: Text)
    requires Digits(f) && (rest == [] || (!IsDigit(rest[0]) && rest[0] != DOT))
    ensures FractionLength(EmitFraction(f, rest)) == |EmitFraction(f, [])|
    ensures EmitFraction(f, rest)[|EmitFraction(f, [])|..] == rest
    ensures EmitFraction(f, rest) == [] || !IsDigit(EmitFraction(f, rest)[0])
  {
    if f != [] {
      RunOfDigits(f, rest);
      assert EmitFraction(f, rest)[1..] == f + rest;
    }
  }

  lemma AcceptedNumber(s: Text) returns (n: Number)
    requires NumberLength(s).Some?
    ensures IsNumber(n) && EmitNumber(n, s[NumberLength(s).value..]) == s
  {
    hide EmitNumber, EmitExponent, EmitFraction, FractionLength, ExponentLength, WholeLength;
    var sign, t := SplitSign(s);
    var whole := AcceptedWhole(t);
    var u := t[|whole|..];
    var fraction := AcceptedFraction(u);
    var v := u[FractionLength(u)..];
    var exponent := AcceptedExponent(v);
    var w := v[ExponentLength(v)..];
    n := Number(sign != [], whole, fraction, exponent);
    NumberEnds(s, t, u, v, w);
    hide NumberLength;
    NumberEmits(n, sign, t, u, v, w);
  }

  lemma SplitSign(s: Text) returns (sign: Text, t: Text)
    ensures sign == if Starts(s, MINUS) then [MINUS] else []
    ensures s == sign + t && t == s[(if Starts(s, MINUS) then 1 else 0)..]
  {
    if Starts(s, MINUS) { sign, t := [MINUS], s[1..]; } else { sign, t := [], s; }
  }

  lemma LexemeIsPrefix(n: Number, s: Text, k: nat)
    requires k <= |s| && EmitNumber(n, s[k..]) == s
    ensures EmitNumber(n, []) == s[..k]
  {
    NumberPrefix(n, s[k..]);
    hide EmitNumber;
    Slices(EmitNumber(n, []), s[k..]);
  }

  lemma NumberEnds(s: Text, t: Text, u: Text, v: Text, w: Text)
    requires NumberLength(s).Some?
    requires t == s[(if Starts(s, MINUS) then 1 else 0)..]
    requires u == t[WholeLength(t)..] && v == u[FractionLength(u)..] && w == v[ExponentLength(v)..]
    ensures w == s[NumberLength(s).value..]
  {
    hide WholeLength, FractionLength, ExponentLength;
    var a := if Starts(s, MINUS) then 1 else 0;
    Tails(s, a, WholeLength(t));
    Tails(s, a + WholeLength(t), FractionLength(u));
    Tails(s, a + WholeLength(t) + FractionLength(u), ExponentLength(v));
  }

  lemma Tails(s: Text, i: nat, j: nat)
    requires i + j <= |s|
    ensures s[i..][j..] == s[i + j..]
  {
  }

  lemma NumberEmits(n: Number, sign: Text, t: Text, u: Text, v: Text, w: Text)
    requires sign == if n.minus then [MINUS] else []
    requires t == n.whole + u && u == EmitFraction(n.fraction, v) && v == EmitExponent(n.exponent, w)
    ensures EmitNumber(n, w) == sign + t
  {
  }

  lemma AcceptedWhole(t: Text) returns (whole: Text)
    requires WholeLength(t) > 0
    ensures whole == t[..WholeLength(t)] && Digits(whole) && whole != [] && (whole[0] == 0x30 ==> |whole| == 1)
    ensures t == whole + t[WholeLength(t)..]
  {
    whole := t[..WholeLength(t)];
    DigitsOfRun(t);
  }

  lemma NumberPrefix(n: Number, rest: Text)
    ensures EmitNumber(n, rest) == EmitNumber(n, []) + rest
  {
    assert EmitExponent(n.exponent, rest) == EmitExponent(n.exponent, []) + rest;
    assert EmitFraction(n.fraction, EmitExponent(n.exponent, rest))
        == EmitFraction(n.fraction, EmitExponent(n.exponent, [])) + rest;
  }

  lemma AcceptedFraction(s: Text) returns (f: Text)
    ensures Digits(f) && EmitFraction(f, s[FractionLength(s)..]) == s
  {
    f := [];
    if FractionLength(s) > 0 {
      DigitsOfRun(s[1..]);
      f := s[1..FractionLength(s)];
      assert f == s[1..][..DigitRun(s[1..])];
    }
  }

  lemma AcceptedExponent(s: Text) returns (e: Exponent)
    ensures IsNumber(Number(false, [0x30], [], e)) && EmitExponent(e, s[ExponentLength(s)..]) == s
  {
    e := NoExponent;
    hide DigitRun;
    if ExponentLength(s) > 0 {
      var start := if |s| > 1 && IsSign(s[1]) then 2 else 1;
      DigitsOfRun(s[start..]);
      var digits := s[start..][..DigitRun(s[start..])];
      e := Exponent(s[0], s[1..start], digits);
      assert s[start..] == digits + s[ExponentLength(s)..];
      assert s == [s[0]] + (s[1..start] + s[start..]);
    }
  }
}
