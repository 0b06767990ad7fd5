/** Two-space pretty printing, as the blinding step writes its output, and reading it back. */
module JsonPrinter {
  import opened Prelude
  import opened StrictJson
  import opened JsonGrammar
  import opened JsonCorrect

  /** A value in memory, its properties in the order the engine enumerates them. */
  datatype Doc =
    | NullDoc
    | BoolDoc(flag: bool)
    | NumDoc(number: Double)
    | StrDoc(text: Text)
    | ArrDoc(items: Docs)
    | ObjDoc(fields: Fields)

  datatype Docs = NoItem | Item(head: Doc, tail: Docs)

  datatype Fields = NoField | Field(name: Text, value: Doc, tail: Fields)

  const LINE_FEED: Unit := 0x0A
  const SPACE: Unit := 0x20

  // ----- what a document is as a value

  function ValueOf(d: Doc): Json {
    match d
    case NullDoc => Null
    case BoolDoc(b) => Bool(b)
    case NumDoc(n) => Num(n)
    case StrDoc(t) => Str(t)
    case ArrDoc(items) => Arr(ItemsOf(items))
    case ObjDoc(fields) => Obj(FieldsOf(fields))
  }

  function ItemsOf(ds: Docs): seq<Json> {
    match ds
    case NoItem => []
    case Item(head, tail) => [ValueOf(head)] + ItemsOf(tail)
  }

  function FieldsOf(fs: Fields): map<Text, Json> {
    match fs
    case NoField => map[]
    case Field(name, value, tail) => map[name := ValueOf(value)] + FieldsOf(tail)
  }

  /** No object in memory has the same property twice. */
  predicate Proper(d: Doc) {
    match d
    case ArrDoc(items) => ProperItems(items)
    case ObjDoc(fields) => ProperFields(fields, {})
    case _ => true
  }

  predicate ProperItems(ds: Docs) {
    ds.Item? ==> Proper(ds.head) && ProperItems(ds.tail)
  }

  predicate ProperFields(fs: Fields, used: set<Text>) {
    fs.Field? ==> fs.name !in used && Proper(fs.value) && ProperFields(fs.tail, used + {fs.name})
  }

  // ----- printing

  function NewLine(indent: nat): Text {
    [LINE_FEED] + seq(indent, _ => SPACE)
  }

  function LowerHex(n: nat): Unit
    requires n < 16
  {
    if n < 10 then 0x30 + n else 0x57 + n
  }

  function HexPiece(c: Unit): Piece {
    Hex([LowerHex(c / 0x1000), LowerHex(c / 0x100 % 0x10), LowerHex(c / 0x10 % 0x10), LowerHex(c % 0x10)])
  }

  /** How one code unit is quoted when no surrogate pair claims it. */
  function Quoted(c: Unit): Piece {
    if c == QUOTE || c == BACKSLASH then Short(c)
    else if c == 0x08 then Short(0x62)
    else if c == 0x09 then Short(0x74)
    else if c == 0x0A then Short(0x6E)
    else if c == 0x0C then Short(0x66)
    else if c == 0x0D then Short(0x72)
    else if c < 0x20 || IsHigh(c) || IsLow(c) then HexPiece(c)
    else Plain(c)
  }

  function Quote(s: Text): seq<Piece>
    decreases |s|
  {
    if s == [] then []
    else if |s| >= 2 && IsHigh(s[0]) && IsLow(s[1]) then [Plain(s[0]), Plain(s[1])] + Quote(s[2..])
    else [Quoted(s[0])] + Quote(s[1..])
  }

  /** The text of a document printed at `indent`, followed by `rest`. */
  function Print(d: Doc, indent: nat, show: Double -> Number, rest: Text): Text
    decreases d
  {
    match d
    case NullDoc => NULL + rest
    case BoolDoc(b) => (if b then TRUE else FALSE) + rest
    case NumDoc(n) => EmitNumber(show(n), rest)
    case StrDoc(t) => EmitString(Quote(t), rest)
    case ArrDoc(items) =>
      [OPEN_BRACKET] + if items.NoItem? then [CLOSE_BRACKET] + rest
                       else PrintItems(items, indent + 2, show, NewLine(indent) + ([CLOSE_BRACKET] + rest))
    case ObjDoc(fields) =>
      [OPEN_BRACE] + if fields.NoField? then [CLOSE_BRACE] + rest
                     else PrintFields(fields, indent + 2, show, NewLine(indent) + ([CLOSE_BRACE] + rest))
  }

  function PrintItems(ds: Docs, indent: nat, show: Double -> Number, rest: Text): Text
    requires ds.Item?
    decreases ds
  {
    NewLine(indent) +
    Print(ds.head, indent, show,
          if ds.tail.NoItem? then rest else [COMMA] + PrintItems(ds.tail, indent, show, rest))
  }

  function PrintFields(fs: Fields, indent: nat, show: Double -> Number, rest: Text): Text
    requires fs.Field?
    decreases fs
  {
    NewLine(indent) +
    EmitString(Quote(fs.name), [COLON] + ([SPACE] +
      Print(fs.value, indent, show,
            if fs.tail.NoField? then rest else [COMMA] + PrintFields(fs.tail, indent, show, rest))))
  }

  // ----- the derivation of a printed document

  function TreeOf(d: Doc, indent: nat, show: Double -> Number): Tree
    decreases d
  {
    match d
    case NullDoc => NullTree
    case BoolDoc(b) => if b then TrueTree else FalseTree
    case NumDoc(n) => NumberTree(show(n))
    case StrDoc(t) => StringTree(Quote(t))
    case ArrDoc(items) =>
      if items.NoItem? then EmptyArray([]) else Array(TreeItems(items, indent + 2, NewLine(indent), show))
    case ObjDoc(fields) =>
      if fields.NoField? then EmptyObject([]) else Object(TreeMembers(fields, indent + 2, NewLine(indent), show))
  }

  function TreeItems(ds: Docs, indent: nat, trail: Text, show: Double -> Number): Items
    requires ds.Item?
    decreases ds
  {
    var item := TreeOf(ds.head, indent, show);
    if ds.tail.NoItem? then LastItem(NewLine(indent), item, trail)
    else MoreItems(NewLine(indent), item, [], TreeItems(ds.tail, indent, trail, show))
  }

  function TreeMembers(fs: Fields, indent: nat, trail: Text, show: Double -> Number): Members
    requires fs.Field?
    decreases fs
  {
    var value := TreeOf(fs.value, indent, show);
    if fs.tail.NoField? then LastMember(Member(NewLine(indent), Quote(fs.name), [], [SPACE], value, trail))
    else MoreMembers(Member(NewLine(indent), Quote(fs.name), [], [SPACE], value, []),
                     TreeMembers(fs.tail, indent, trail, show))
  }

  lemma {:induction false} PrintEmits(d: Doc, indent: nat, show: Double -> Number, rest: Text)
    ensures Print(d, indent, show, rest) == Emit(TreeOf(d, indent, show), rest)
    decreases d
  {
    match d
    case ArrDoc(items) =>
      if items.Item? {
        PrintItemsEmits(items, indent + 2, NewLine(indent), show, rest);
      } else {
        assert [] + ([CLOSE_BRACKET] + rest) == [CLOSE_BRACKET] + rest;
      }
    case ObjDoc(fields) =>
      if fields.Field? {
        PrintFieldsEmits(fields, indent + 2, NewLine(indent), show, rest);
      } else {
        assert [] + ([CLOSE_BRACE] + rest) == [CLOSE_BRACE] + rest;
      }
    case _ =>
  }

  lemma {:induction false} PrintItemsEmits(ds: Docs, indent: nat, trail: Text, show: Double -> Number, rest: Text)
    requires ds.Item?
    ensures PrintItems(ds, indent, show, trail + ([CLOSE_BRACKET] + rest))
         == EmitItems(TreeItems(ds, indent, trail, show), rest)
    decreases ds
  {
    var end := trail + ([CLOSE_BRACKET] + rest);
    if ds.tail.NoItem? {
      PrintEmits(ds.head, indent, show, end);
    } else {
      PrintItemsEmits(ds.tail, indent, trail, show, rest);
      var more := [COMMA] + PrintItems(ds.tail, indent, show, end);
      PrintEmits(ds.head, indent, show, more);
      assert [] + more == more;
    }
  }

  lemma {:induction false} PrintFieldsEmits(fs: Fields, indent: nat, trail: Text, show: Double -> Number, rest: Text)
    requires fs.Field?
    ensures PrintFields(fs, indent, show, trail + ([CLOSE_BRACE] + rest))
         == EmitMembers(TreeMembers(fs, indent, trail, show), rest)
    decreases fs
  {
    var end := trail + ([CLOSE_BRACE] + rest);
    if fs.tail.NoField? {
      PrintEmits(fs.value, indent, show, end);
      FieldEmits(fs, indent, trail, show, [CLOSE_BRACE] + rest);
    } else {
      PrintFieldsEmits(fs.tail, indent, trail, show, rest);
      var more := [COMMA] + PrintFields(fs.tail, indent, show, end);
      PrintEmits(fs.value, indent, show, more);
      assert [] + more == more;
      FieldEmits(fs, indent, [], show, more);
    }
  }

  lemma FieldEmits(fs: Fields, indent: nat, trail: Text, show: Double -> Number, after: Text)
    requires fs.Field?
    requires Print(fs.value, indent, show, trail + after) == Emit(TreeOf(fs.value, indent, show), trail + after)
    ensures NewLine(indent)
          + EmitString(Quote(fs.name), [COLON] + ([SPACE] + Print(fs.value, indent, show, trail + after)))
         == EmitMember(Member(NewLine(indent), Quote(fs.name), [], [SPACE], TreeOf(fs.value, indent, show), trail), after)
  {
    var body := [COLON] + ([SPACE] + Print(fs.value, indent, show, trail + after));
    assert [] + body == body;
  }

  lemma QuotedUnit(c: Unit)
    ensures IsPiece(Quoted(c)) && PieceValue(Quoted(c)) == c
  {
    HexUnit(c);
    hide HexPiece;
  }

  lemma HexUnit(c: Unit)
    ensures IsPiece(HexPiece(c)) && PieceValue(HexPiece(c)) == c
  {
    var a, b, d, e := c / 0x1000, c / 0x100 % 0x10, c / 0x10 % 0x10, c % 0x10;
    Nibbles(c);
    LowerHexReads(a);
    LowerHexReads(b);
    LowerHexReads(d);
    LowerHexReads(e);
    hide LowerHex, HexDigit, IsHex;
    assert PieceValue(HexPiece(c)) == 0x1000 * a + 0x100 * b + 0x10 * d + e;
  }

  lemma LowerHexReads(n: nat)
    requires n < 16
    ensures IsHex(LowerHex(n)) && HexDigit(LowerHex(n)) == n
  {
  }

  lemma Nibbles(c: Unit)
    ensures c == 0x1000 * (c / 0x1000) + 0x100 * (c / 0x100 % 0x10) + 0x10 * (c / 0x10 % 0x10) + c % 0x10
  {
    assert c / 0x100 == c / 0x10 / 0x10 && c / 0x1000 == c / 0x100 / 0x10;
  }

  lemma {:induction false} QuotedText(s: Text)
    ensures ArePieces(Quote(s)) && StringValue(Quote(s)) == s
    decreases |s|
  {
    if s == [] {
    } else if |s| >= 2 && IsHigh(s[0]) && IsLow(s[1]) {
      QuotedText(s[2..]);
      var tail := Quote(s[2..]);
      assert ([Plain(s[0]), Plain(s[1])] + tail)[1..] == [Plain(s[1])] + tail;
      assert ([Plain(s[1])] + tail)[1..] == tail;
      assert StringValue([Plain(s[1])] + tail) == [s[1]] + s[2..];
    } else {
      QuotedUnit(s[0]);
      QuotedText(s[1..]);
      assert ([Quoted(s[0])] + Quote(s[1..]))[1..] == Quote(s[1..]);
    }
  }

  /** Every double is shown as a number that reads back as it. */
  ghost predicate Faithful(nums: Numerals, show: Double -> Number) {
    forall d: Double :: IsNumber(show(d)) && nums.read(EmitNumber(show(d), [])) == Some(d)
  }

  lemma {:induction false} PrintedIsAdmitted(d: Doc, indent: nat, show: Double -> Number, depth: nat,
                                             nums: Numerals, forbidExpected: bool)
    requires Faithful(nums, show) && Proper(d) && IsInput(ValueOf(d), forbidExpected, depth)
    ensures Admitted(TreeOf(d, indent, show), depth, nums)
    ensures Meaning(TreeOf(d, indent, show), depth, nums) == ValueOf(d)
    decreases d
  {
    match d
    case NumDoc(n) => assert IsNumber(show(n));
    case StrDoc(t) => QuotedText(t);
    case ArrDoc(items) =>
      if items.Item? {
        assert forall v :: v in ItemsOf(items) ==> IsInput(v, forbidExpected, depth + 1);
        ItemsAreAdmitted(items, indent + 2, NewLine(indent), show, depth, nums, forbidExpected);
      }
    case ObjDoc(fields) =>
      if fields.Field? {
        FieldsAreAdmitted(fields, {}, indent + 2, NewLine(indent), show, depth, nums, forbidExpected);
      }
    case _ =>
  }

  lemma {:induction false} ItemsAreAdmitted(ds: Docs, indent: nat, trail: Text, show: Double -> Number, depth: nat,
                                            nums: Numerals, forbidExpected: bool)
    requires ds.Item? && Faithful(nums, show) && ProperItems(ds) && Spaces(trail)
    requires forall v :: v in ItemsOf(ds) ==> IsInput(v, forbidExpected, depth + 1)
    ensures AdmittedItems(TreeItems(ds, indent, trail, show), depth, nums)
    ensures ItemValues(TreeItems(ds, indent, trail, show), depth, nums) == ItemsOf(ds)
    decreases ds
  {
    assert ValueOf(ds.head) in ItemsOf(ds);
    PrintedIsAdmitted(ds.head, indent, show, depth + 1, nums, forbidExpected);
    if ds.tail.Item? {
      assert forall v :: v in ItemsOf(ds.tail) ==> v in ItemsOf(ds);
      ItemsAreAdmitted(ds.tail, indent, trail, show, depth, nums, forbidExpected);
    }
  }

  lemma {:induction false} NamesAreNew(fs: Fields, used: set<Text>)
    requires ProperFields(fs, used)
    ensures FieldsOf(fs).Keys !! used
    decreases fs
  {
    if fs.Field? { NamesAreNew(fs.tail, used + {fs.name}); }
  }

  ghost predicate MembersAreInput(members: map<Text, Json>, forbidExpected: bool, depth: nat) {
    forall k :: k in members ==> WellFormed(k) && IsInput(members[k], forbidExpected, depth)
  }

  lemma {:induction false} FieldsAreAdmitted(fs: Fields, used: set<Text>, indent: nat, trail: Text,
                                             show: Double -> Number, depth: nat, nums: Numerals, forbidExpected: bool)
    requires fs.Field? && Faithful(nums, show) && ProperFields(fs, used) && Spaces(trail)
    requires MembersAreInput(FieldsOf(fs), forbidExpected, depth + 1)
    ensures AdmittedMembers(TreeMembers(fs, indent, trail, show), used, depth, nums)
    ensures MemberValues(TreeMembers(fs, indent, trail, show), used, depth, nums) == FieldsOf(fs)
    decreases fs
  {
    NamesAreNew(fs.tail, used + {fs.name});
    assert fs.name in FieldsOf(fs) && FieldsOf(fs)[fs.name] == ValueOf(fs.value);
    PrintedIsAdmitted(fs.value, indent, show, depth + 1, nums, forbidExpected);
    QuotedText(fs.name);
    if fs.tail.Field? {
      assert forall k :: k in FieldsOf(fs.tail) ==> k in FieldsOf(fs) && FieldsOf(fs)[k] == FieldsOf(fs.tail)[k];
      FieldsAreAdmitted(fs.tail, used + {fs.name}, indent, trail, show, depth, nums, forbidExpected);
    }
  }

  /** Printing an accepted value and reading the file again gives the same value. */
  lemma PrintedValuesReadBack(text: Text, v: Json, d: Doc, forbidExpected: bool, nums: Numerals,
                              show: Double -> Number)
    requires Faithful(nums, show)
    requires ParseStrict(text, forbidExpected, nums) == Ok(v) && Proper(d) && ValueOf(d) == v
    ensures ParseStrict(Print(d, 0, show, [LINE_FEED]), forbidExpected, nums) == Ok(v)
  {
    InputsReadBack(d, forbidExpected, nums, show);
  }

  /** The same for any value the second pass lets through, as after `expected` is taken out. */
  lemma InputsReadBack(d: Doc, forbidExpected: bool, nums: Numerals, show: Double -> Number)
    requires Faithful(nums, show)
    requires Proper(d) && IsInput(ValueOf(d), forbidExpected, 0)
    ensures ParseStrict(Print(d, 0, show, [LINE_FEED]), forbidExpected, nums) == Ok(ValueOf(d))
  {
    var t := TreeOf(d, 0, show);
    PrintEmits(d, 0, show, [LINE_FEED]);
    PrintedIsAdmitted(d, 0, show, 0, nums, forbidExpected);
    var s := Print(d, 0, show, [LINE_FEED]);
    assert [] + s == s;
    SecondPass(t, 0, nums, forbidExpected);
    DerivationsAreAccepted(s, [], t, [LINE_FEED], forbidExpected, nums);
  }

  /** Every value is some document, so the round trip is never empty. */
  lemma {:induction false} EveryValuePrints(v: Json) returns (d: Doc)
    ensures Proper(d) && ValueOf(d) == v
    decreases v, 0
  {
    match v
    case Null => d := NullDoc;
    case Bool(b) => d := BoolDoc(b);
    case Num(n) => d := NumDoc(n);
    case Str(t) => d := StrDoc(t);
    case Arr(items) =>
      var ds := EveryItemPrints(v, 0);
      d := ArrDoc(ds);
    case Obj(members) =>
      var fs := EveryMemberPrints(v, members, {});
      d := ObjDoc(fs);
  }

  lemma {:induction false} EveryItemPrints(v: Json, i: nat) returns (ds: Docs)
    requires v.Arr? && i <= |v.items|
    ensures ProperItems(ds) && ItemsOf(ds) == v.items[i..]
    decreases v, 0, |v.items| - i
  {
    if i == |v.items| {
      ds := NoItem;
    } else {
      var head := EveryValuePrints(v.items[i]);
      var tail := EveryItemPrints(v, i + 1);
      ds := Item(head, tail);
    }
  }

  lemma {:induction false} EveryMemberPrints(v: Json, left: map<Text, Json>, used: set<Text>) returns (fs: Fields)
    requires v.Obj? && left.Keys !! used && forall k :: k in left ==> k in v.members && left[k] == v.members[k]
    ensures ProperFields(fs, used) && FieldsOf(fs) == left
    decreases v, 0, |left|
  {
    if left == map[] {
      fs := NoField;
    } else {
      var k :| k in left;
      var value := EveryValuePrints(v.members[k]);
      var more := left - {k};
      TakenOut(left, k);
      var tail := EveryMemberPrints(v, more, used + {k});
      fs := Field(k, value, tail);
    }
  }

  lemma TakenOut(m: map<Text, Json>, k: Text)
    requires k in m
    ensures map[k := m[k]] + (m - {k}) == m && |m - {k}| < |m| && (m - {k}).Keys == m.Keys - {k}
  {
    assert map[k := m[k]] + (m - {k}) == m;
    assert (m - {k}).Keys == m.Keys - {k};
    assert |m.Keys - {k}| < |m.Keys|;
    assert |m - {k}| == |(m - {k}).Keys| && |m| == |m.Keys|;
  }
}
