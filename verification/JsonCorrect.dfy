/** The reader accepts exactly the admitted texts, and reads each as what it means. */
module JsonCorrect {
  import opened Prelude
  import opened StrictJson
  import opened JsonGrammar

  // ----- complete: an admitted text is read back whole

  lemma EmitStarts(t: Tree, depth: nat, nums: Numerals, rest: Text)
    requires Admitted(t, depth, nums)
    ensures Emit(t, rest) != [] && !IsSpace(Emit(t, rest)[0])
    ensures Emit(t, rest)[0] != CLOSE_BRACKET && Emit(t, rest)[0] != CLOSE_BRACE
  {
    if t.NumberTree? { NumberStarts(t.number, rest); }
  }

  lemma NumberStarts(n: Number, rest: Text)
    requires IsNumber(n)
    ensures var s := EmitNumber(n, rest); s != [] && (IsDigit(s[0]) || s[0] == MINUS)
  {
  }

  lemma AfterTrail(trail: Text, c: Unit, rest: Text)
    requires Spaces(trail) && (c == COMMA || c == CLOSE_BRACKET || c == CLOSE_BRACE)
    ensures Delimited(trail + ([c] + rest)) && SkipSpace(trail + ([c] + rest)) == [c] + rest
  {
    SpaceSkips(trail, [c] + rest);
  }

  lemma {:induction false} SkipTwice(s: Text)
    ensures SkipSpace(SkipSpace(s)) == SkipSpace(s)
  {
    var gap := SkippedSpace(s);
    SpaceSkips([], SkipSpace(s));
    assert [] + SkipSpace(s) == SkipSpace(s);
  }

  lemma SkipFirst(s: Text, depth: nat, nums: Numerals, items: seq<Json>, members: map<Text, Json>)
    ensures ParseValue(SkipSpace(s), depth, nums) == ParseValue(s, depth, nums)
    ensures ParseMembers(SkipSpace(s), depth, nums, members) == ParseMembers(s, depth, nums, members)
  {
    SkipTwice(s);
  }

  lemma SkipFirstItem(s: Text, depth: nat, nums: Numerals, done: seq<Json>)
    requires SkipSpace(s) != [] || ParseItems(SkipSpace(s), depth, nums, done).Parsed?
    ensures ParseItems(SkipSpace(s), depth, nums, done) == ParseItems(s, depth, nums, done)
  {
    SkipFirst(s, depth + 1, nums, done, map[]);
    hide ParseValue;
  }

  lemma LiteralAccepted(t: Tree, rest: Text, depth: nat, nums: Numerals)
    requires Admitted(t, depth, nums) && (t.NullTree? || t.TrueTree? || t.FalseTree?)
    ensures ParseScalar(Emit(t, rest), nums) == Parsed(Meaning(t, depth, nums), rest)
    ensures var c := Emit(t, rest)[0]; c != QUOTE && c != OPEN_BRACE && c != OPEN_BRACKET
  {
    hide ParseNumber;
    var s := Emit(t, rest);
    match t
    case NullTree => Slices(NULL, rest); assert s[0] == NULL[0];
    case TrueTree => Slices(TRUE, rest); assert s[0] == TRUE[0];
    case FalseTree => Slices(FALSE, rest); assert s[0] == FALSE[0];
  }

  lemma NumeralAccepted(n: Number, rest: Text, nums: Numerals)
    requires IsNumber(n) && nums.read(EmitNumber(n, [])).Some? && Delimited(rest)
    ensures ParseScalar(EmitNumber(n, rest), nums) == Parsed(Num(nums.read(EmitNumber(n, [])).value), rest)
    ensures var c := EmitNumber(n, rest)[0]; c != QUOTE && c != OPEN_BRACE && c != OPEN_BRACKET
  {
    NumberAccepted(n, rest);
    NumberStarts(n, rest);
    hide EmitNumber, NumberLength, IsNumber, Delimited;
    var s := EmitNumber(n, rest);
    Slices(EmitNumber(n, []), rest);
    assert s[0] != TRUE[0] && s[0] != FALSE[0] && s[0] != NULL[0];
  }

  lemma {:induction false} ValueAccepted(lead: Text, t: Tree, rest: Text, depth: nat, nums: Numerals)
    requires Spaces(lead) && Admitted(t, depth, nums) && Delimited(rest)
    ensures ParseValue(lead + Emit(t, rest), depth, nums) == Parsed(Meaning(t, depth, nums), rest)
    decreases t, 1
  {
    EmitStarts(t, depth, nums, rest);
    SpaceSkips(lead, Emit(t, rest));
    match t
    case StringTree(ps) => StringAccepted(ps, rest);
    case NumberTree(n) => NumeralAccepted(n, rest, nums);
    case EmptyArray(gap) => EmptyAccepted(gap, CLOSE_BRACKET, [OPEN_BRACKET], rest);
    case Array(items) =>
      Slices([OPEN_BRACKET], EmitItems(items, rest));
      ArrayAccepted(items, rest, depth, nums);
    case EmptyObject(gap) => EmptyAccepted(gap, CLOSE_BRACE, [OPEN_BRACE], rest);
    case Object(members) =>
      Slices([OPEN_BRACE], EmitMembers(members, rest));
      ObjectAccepted(members, rest, depth, nums);
    case _ => LiteralAccepted(t, rest, depth, nums);
  }

  lemma EmptyAccepted(gap: Text, close: Unit, start: Text, rest: Text)
    requires Spaces(gap) && |start| == 1 && !IsSpace(close)
    ensures var inner := SkipSpace((start + (gap + ([close] + rest)))[1..]);
            Starts(inner, close) && inner[1..] == rest
  {
    Slices(start, gap + ([close] + rest));
    SpaceSkips(gap, [close] + rest);
  }

  lemma {:induction false} ArrayAccepted(items: Items, rest: Text, depth: nat, nums: Numerals)
    requires AdmittedItems(items, depth, nums)
    ensures var inner := SkipSpace(EmitItems(items, rest));
            !Starts(inner, CLOSE_BRACKET)
            && ParseItems(inner, depth, nums, []) == Parsed(Arr(ItemValues(items, depth, nums)), rest)
    decreases items, 1
  {
    var s := EmitItems(items, rest);
    ItemsAccepted(items, rest, depth, nums, []);
    ItemsStart(items, depth, nums, rest);
    SkipFirstItem(s, depth, nums, []);
    assert [] + ItemValues(items, depth, nums) == ItemValues(items, depth, nums);
  }

  lemma {:induction false} ObjectAccepted(members: Members, rest: Text, depth: nat, nums: Numerals)
    requires AdmittedMembers(members, {}, depth, nums)
    ensures var inner := SkipSpace(EmitMembers(members, rest));
            !Starts(inner, CLOSE_BRACE)
            && ParseMembers(inner, depth, nums, map[]) == Parsed(Obj(MemberValues(members, {}, depth, nums)), rest)
    decreases members, 1
  {
    var s := EmitMembers(members, rest);
    var none: map<Text, Json> := map[];
    assert none.Keys == {};
    MembersAccepted(members, rest, depth, nums, none);
    MembersStart(members, rest);
    SkipFirst(s, depth, nums, [], none);
    hide ParseMembers, EmitMembers, SkipSpace, MemberValues, AdmittedMembers, ParseValue;
    NoneFirst(none, MemberValues(members, {}, depth, nums));
  }

  lemma NoneFirst(none: map<Text, Json>, m: map<Text, Json>)
    requires none == map[]
    ensures none + m == m
  {
  }

  lemma ItemsStart(items: Items, depth: nat, nums: Numerals, rest: Text)
    requires AdmittedItems(items, depth, nums)
    ensures SkipSpace(EmitItems(items, rest)) != [] && SkipSpace(EmitItems(items, rest))[0] != CLOSE_BRACKET
  {
    var after := if items.LastItem? then [CLOSE_BRACKET] + rest else [COMMA] + EmitItems(items.tail, rest);
    EmitStarts(items.item, depth + 1, nums, items.trail + after);
    SpaceSkips(items.lead, Emit(items.item, items.trail + after));
  }

  lemma MembersStart(members: Members, rest: Text)
    requires Spaces(members.member.lead)
    ensures Starts(SkipSpace(EmitMembers(members, rest)), QUOTE)
  {
    var m := members.member;
    var after := if members.LastMember? then [CLOSE_BRACE] + rest else [COMMA] + EmitMembers(members.tail, rest);
    SpaceSkips(m.lead,
      EmitString(m.name, m.gap + ([COLON] + (m.valueLead + Emit(m.value, m.trail + after)))));
  }

  lemma {:induction false} ItemsAccepted(items: Items, rest: Text, depth: nat, nums: Numerals, done: seq<Json>)
    requires AdmittedItems(items, depth, nums)
    ensures ParseItems(EmitItems(items, rest), depth, nums, done)
         == Parsed(Arr(done + ItemValues(items, depth, nums)), rest)
    decreases items, 0
  {
    var value := Meaning(items.item, depth + 1, nums);
    match items
    case LastItem(lead, item, trail) =>
      AfterTrail(trail, CLOSE_BRACKET, rest);
      ValueAccepted(lead, item, trail + ([CLOSE_BRACKET] + rest), depth + 1, nums);
      hide ParseValue, Emit, SkipSpace, Meaning, Admitted;
      assert ItemValues(items, depth, nums) == [value];
    case MoreItems(lead, item, trail, tail) =>
      var after := EmitItems(tail, rest);
      AfterTrail(trail, COMMA, after);
      ValueAccepted(lead, item, trail + ([COMMA] + after), depth + 1, nums);
      ItemsAccepted(tail, rest, depth, nums, done + [value]);
      hide ParseValue, Emit, SkipSpace, Meaning, Admitted;
      assert ([COMMA] + after)[1..] == after;
      assert done + [value] + ItemValues(tail, depth, nums) == done + ItemValues(items, depth, nums);
  }

  lemma {:induction false} MembersAccepted(members: Members, rest: Text, depth: nat, nums: Numerals,
                                           done: map<Text, Json>)
    requires AdmittedMembers(members, done.Keys, depth, nums)
    ensures ParseMembers(EmitMembers(members, rest), depth, nums, done)
         == Parsed(Obj(done + MemberValues(members, done.Keys, depth, nums)), rest)
    decreases members, 0
  {
    var m := members.member;
    var name := StringValue(m.name);
    var value := MemberValue(m, depth, nums);
    match members
    case LastMember(_) =>
      AfterTrail(m.trail, CLOSE_BRACE, rest);
      MemberAccepted(m, [CLOSE_BRACE] + rest, depth, nums, done);
      hide ParseValue, Emit, SkipSpace, ParseString, EmitString, EmitMember, StringValue, Meaning, Admitted;
      assert MemberValues(members, done.Keys, depth, nums) == map[name := value];
      assert done + map[name := value] == done[name := value];
    case MoreMembers(_, tail) =>
      var after := EmitMembers(tail, rest);
      AfterTrail(m.trail, COMMA, after);
      MemberAccepted(m, [COMMA] + after, depth, nums, done);
      PlusOne(done, name, value, map[]);
      MembersAccepted(tail, rest, depth, nums, done[name := value]);
      hide ParseMembers, EmitMembers, EmitMember, SkipSpace, MemberValues;
      MoreAccepted(members, rest, depth, nums, done);
  }

  lemma {:induction false} MoreAccepted(members: Members, rest: Text, depth: nat, nums: Numerals,
                                        done: map<Text, Json>)
    requires members.MoreMembers? && AdmittedMembers(members, done.Keys, depth, nums)
    requires var m := members.member;
             var after := [COMMA] + EmitMembers(members.tail, rest);
             var s := SkipSpace(EmitMember(m, after));
             && Starts(s, QUOTE) && ParseString(s).Parsed? && ParseString(s).value == StringValue(m.name)
             && var colon := SkipSpace(ParseString(s).rest);
             && Starts(colon, COLON)
             && ParseValue(colon[1..], depth + 1, nums) == Parsed(MemberValue(m, depth, nums), m.trail + after)
             && SkipSpace(m.trail + after) == after
    requires var m := members.member;
             var more := done[StringValue(m.name) := MemberValue(m, depth, nums)];
             && AdmittedMembers(members.tail, more.Keys, depth, nums)
             && ParseMembers(EmitMembers(members.tail, rest), depth, nums, more)
             == Parsed(Obj(more + MemberValues(members.tail, more.Keys, depth, nums)), rest)
    ensures ParseMembers(EmitMembers(members, rest), depth, nums, done)
         == Parsed(Obj(done + MemberValues(members, done.Keys, depth, nums)), rest)
  {
    hide ParseValue, Emit, SkipSpace, ParseString, EmitString, EmitMember, StringValue, Meaning, Admitted,
      MemberValue, AdmittedMember;
    var name := StringValue(members.member.name);
    var value := MemberValue(members.member, depth, nums);
    assert done[name := value].Keys == done.Keys + {name};
    Slices([COMMA], EmitMembers(members.tail, rest));
    var more := MemberValues(members.tail, done.Keys + {name}, depth, nums);
    assert done[name := value] + more == done + (map[name := value] + more);
  }

  lemma {:induction false} MemberAccepted(m: Member, after: Text, depth: nat, nums: Numerals, done: map<Text, Json>)
    requires AdmittedMember(m, depth, nums) && Delimited(m.trail + after)
    requires ArePieces(m.name) && WellFormed(StringValue(m.name)) && StringValue(m.name) !in done
    ensures var s := SkipSpace(EmitMember(m, after));
            && Starts(s, QUOTE) && ParseString(s).Parsed? && ParseString(s).value == StringValue(m.name)
            && var colon := SkipSpace(ParseString(s).rest);
            && Starts(colon, COLON)
            && ParseValue(colon[1..], depth + 1, nums) == Parsed(MemberValue(m, depth, nums), m.trail + after)
    decreases m
  {
    var body := m.valueLead + Emit(m.value, m.trail + after);
    var afterName := m.gap + ([COLON] + body);
    SpaceSkips(m.lead, EmitString(m.name, afterName));
    StringAccepted(m.name, afterName);
    SpaceSkips(m.gap, [COLON] + body);
    assert ([COLON] + body)[1..] == body;
    ValueAccepted(m.valueLead, m.value, m.trail + after, depth + 1, nums);
  }

  // ----- sound: what is accepted has a derivation

  lemma {:induction false} AcceptedValue(input: Text, depth: nat, nums: Numerals) returns (lead: Text, t: Tree)
    requires ParseValue(input, depth, nums).Parsed?
    ensures Spaces(lead) && Admitted(t, depth, nums)
    ensures var r := ParseValue(input, depth, nums);
            input == lead + Emit(t, r.rest) && Meaning(t, depth, nums) == r.value
    decreases |input|, 1
  {
    lead := SkippedSpace(input);
    var s := SkipSpace(input);
    if Starts(s, QUOTE) {
      var ps := AcceptedString(s);
      t := StringTree(ps);
    } else if Starts(s, OPEN_BRACE) {
      t := AcceptedObject(s, depth, nums);
    } else if Starts(s, OPEN_BRACKET) {
      t := AcceptedArray(s, depth, nums);
    } else {
      t := AcceptedScalar(s, depth, nums);
    }
  }

  lemma {:induction false} AcceptedScalar(s: Text, depth: nat, nums: Numerals) returns (t: Tree)
    requires depth <= MAX_DEPTH && ParseScalar(s, nums).Parsed?
    ensures Admitted(t, depth, nums)
    ensures s == Emit(t, ParseScalar(s, nums).rest) && Meaning(t, depth, nums) == ParseScalar(s, nums).value
  {
    if TRUE <= s {
      t := TrueTree;
    } else if FALSE <= s {
      t := FalseTree;
    } else if NULL <= s {
      t := NullTree;
    } else {
      var n := AcceptedNumber(s);
      LexemeIsPrefix(n, s, NumberLength(s).value);
      t := NumberTree(n);
    }
  }

  lemma EmptyEmits(s: Text, gap: Text, inner: Text, close: Unit)
    requires |s| > 0 && s[1..] == gap + inner && Starts(inner, close)
    ensures s == [s[0]] + (gap + ([close] + inner[1..]))
  {
    assert inner == [close] + inner[1..];
    Headed(s);
  }

  lemma Headed(s: Text)
    requires |s| > 0
    ensures s == [s[0]] + s[1..]
  {
  }

  lemma {:induction false} AcceptedArray(s: Text, depth: nat, nums: Numerals) returns (t: Tree)
    requires depth <= MAX_DEPTH && Starts(s, OPEN_BRACKET)
    requires var inner := SkipSpace(s[1..]);
             Starts(inner, CLOSE_BRACKET) || ParseItems(inner, depth, nums, []).Parsed?
    ensures Admitted(t, depth, nums)
    ensures var inner := SkipSpace(s[1..]);
            if Starts(inner, CLOSE_BRACKET) then s == Emit(t, inner[1..]) && Meaning(t, depth, nums) == Arr([])
            else var r := ParseItems(inner, depth, nums, []); s == Emit(t, r.rest) && Meaning(t, depth, nums) == r.value
    decreases |s|, 0
  {
    hide SkipSpace, ParseValue, ParseItems, EmitItems, ItemValues, AdmittedItems;
    var gap := SkippedSpace(s[1..]);
    var inner := SkipSpace(s[1..]);
    if Starts(inner, CLOSE_BRACKET) {
      t := EmptyArray(gap);
      EmptyEmits(s, gap, inner, CLOSE_BRACKET);
    } else {
      Headed(s);
      SkipFirstItem(s[1..], depth, nums, []);
      var items := AcceptedItems(s[1..], depth, nums, []);
      t := Array(items);
      assert [] + ItemValues(items, depth, nums) == ItemValues(items, depth, nums);
    }
  }

  lemma {:induction false} AcceptedObject(s: Text, depth: nat, nums: Numerals) returns (t: Tree)
    requires depth <= MAX_DEPTH && Starts(s, OPEN_BRACE)
    requires var inner := SkipSpace(s[1..]);
             Starts(inner, CLOSE_BRACE) || ParseMembers(inner, depth, nums, map[]).Parsed?
    ensures Admitted(t, depth, nums)
    ensures var inner := SkipSpace(s[1..]);
            if Starts(inner, CLOSE_BRACE) then s == Emit(t, inner[1..]) && Meaning(t, depth, nums) == Obj(map[])
            else var r := ParseMembers(inner, depth, nums, map[]);
                 s == Emit(t, r.rest) && Meaning(t, depth, nums) == r.value
    decreases |s|, 0
  {
    hide SkipSpace, ParseValue, ParseMembers, EmitMembers, MemberValues, AdmittedMembers;
    var gap := SkippedSpace(s[1..]);
    var inner := SkipSpace(s[1..]);
    if Starts(inner, CLOSE_BRACE) {
      t := EmptyObject(gap);
      EmptyEmits(s, gap, inner, CLOSE_BRACE);
    } else {
      Headed(s);
      var none: map<Text, Json> := map[];
      assert none.Keys == {};
      SkipFirst(s[1..], depth, nums, [], none);
      var members := AcceptedMembers(s[1..], depth, nums, none);
      t := Object(members);
      NoneFirst(none, MemberValues(members, {}, depth, nums));
    }
  }

  lemma {:induction false} AcceptedItems(input: Text, depth: nat, nums: Numerals, done: seq<Json>)
    returns (items: Items)
    requires ParseItems(input, depth, nums, done).Parsed?
    ensures AdmittedItems(items, depth, nums)
    ensures var r := ParseItems(input, depth, nums, done);
            input == EmitItems(items, r.rest) && r.value == Arr(done + ItemValues(items, depth, nums))
    decreases |input|, 3
  {
    var value, next, lead, item, trail := AcceptedItem(input, depth, nums, done);
    hide ParseItems, Emit, SkipSpace, Meaning, Admitted;
    if next[0] == CLOSE_BRACKET {
      items := LastItem(lead, item, trail);
    } else {
      var tail := AcceptedItems(next[1..], depth, nums, done + [value]);
      items := MoreItems(lead, item, trail, tail);
      Regroup(done, value, ItemValues(tail, depth, nums));
    }
  }

  lemma Regroup(done: seq<Json>, value: Json, more: seq<Json>)
    ensures done + [value] + more == done + ([value] + more)
  {
  }

  /** One turn of the item loop, up to the comma or bracket. */
  lemma {:induction false} AcceptedItem(input: Text, depth: nat, nums: Numerals, done: seq<Json>)
    returns (value: Json, next: Text, lead: Text, item: Tree, trail: Text)
    requires ParseItems(input, depth, nums, done).Parsed?
    ensures Spaces(lead) && Spaces(trail) && Admitted(item, depth + 1, nums)
    ensures Meaning(item, depth + 1, nums) == value
    ensures next != [] && |next| < |input| && (next[0] == CLOSE_BRACKET || next[0] == COMMA)
    ensures next == [next[0]] + next[1..] && input == lead + Emit(item, trail + next)
    ensures ParseItems(input, depth, nums, done)
         == if next[0] == CLOSE_BRACKET then Parsed(Arr(done + [value]), next[1..])
            else ParseItems(next[1..], depth, nums, done + [value])
    decreases |input|, 2
  {
    lead, item := AcceptedValue(input, depth + 1, nums);
    var r := ParseValue(input, depth + 1, nums);
    value := r.value;
    trail := SkippedSpace(r.rest);
    next := SkipSpace(r.rest);
  }

  lemma {:induction false} AcceptedMembers(input: Text, depth: nat, nums: Numerals, done: map<Text, Json>)
    returns (members: Members)
    requires ParseMembers(input, depth, nums, done).Parsed?
    ensures AdmittedMembers(members, done.Keys, depth, nums)
    ensures var r := ParseMembers(input, depth, nums, done);
            input == EmitMembers(members, r.rest) && r.value == Obj(done + MemberValues(members, done.Keys, depth, nums))
    decreases |input|, 2
  {
    hide EmitMember, StringValue, WellFormed, AdmittedMember, MemberValue, ArePieces;
    var name, value, next, m := AcceptedMember(input, depth, nums, done);
    hide ParseMembers;
    if next[0] == CLOSE_BRACE {
      members := LastMember(m);
      PlusOne(done, name, value, map[]);
    } else {
      var tail := AcceptedMembers(next[1..], depth, nums, done[name := value]);
      members := MoreMembers(m, tail);
      PlusOne(done, name, value, MemberValues(tail, done[name := value].Keys, depth, nums));
    }
  }

  lemma PlusOne(done: map<Text, Json>, name: Text, value: Json, more: map<Text, Json>)
    ensures done[name := value] + more == done + (map[name := value] + more)
    ensures done[name := value].Keys == done.Keys + {name}
    ensures more == map[] ==> done + map[name := value] == done[name := value]
  {
    assert done[name := value] + more == done + (map[name := value] + more);
    if more == map[] {
      assert done + map[name := value] == done[name := value];
    }
  }

  /** One turn of the member loop, up to the comma or brace. */
  lemma {:induction false} AcceptedMember(input: Text, depth: nat, nums: Numerals, done: map<Text, Json>)
    returns (name: Text, value: Json, next: Text, m: Member)
    requires ParseMembers(input, depth, nums, done).Parsed?
    ensures AdmittedMember(m, depth, nums) && ArePieces(m.name) && WellFormed(name)
    ensures StringValue(m.name) == name && name !in done && MemberValue(m, depth, nums) == value
    ensures next != [] && |next| < |input| && (next[0] == CLOSE_BRACE || next[0] == COMMA)
    ensures next == [next[0]] + next[1..] && input == EmitMember(m, next)
    ensures ParseMembers(input, depth, nums, done)
         == if next[0] == CLOSE_BRACE then Parsed(Obj(done[name := value]), next[1..])
            else ParseMembers(next[1..], depth, nums, done[name := value])
    decreases |input|, 1
  {
    hide SkipSpace, ParseValue, ParseString, Emit, EmitString, WellFormed, StringValue, Admitted, Meaning, ArePieces;
    var lead := SkippedSpace(input);
    var s := SkipSpace(input);
    var ps := AcceptedString(s);
    name := ParseString(s).value;
    var gap := SkippedSpace(ParseString(s).rest);
    var colon := SkipSpace(ParseString(s).rest);
    var valueLead, t := AcceptedValue(colon[1..], depth + 1, nums);
    var r := ParseValue(colon[1..], depth + 1, nums);
    value := r.value;
    var trail := SkippedSpace(r.rest);
    next := SkipSpace(r.rest);
    m := Member(lead, ps, gap, valueLead, t, trail);
    assert colon == [COLON] + colon[1..];
  }

  // ----- both directions

  /** The text is white space, a derivation, and white space. */
  ghost predicate Derives(text: Text, lead: Text, t: Tree, trail: Text, nums: Numerals) {
    Spaces(lead) && Spaces(trail) && Admitted(t, 0, nums) && text == lead + Emit(t, trail)
  }

  /** The only forbidden thing the second pass can still find is a member name. */
  predicate KeysAllowed(v: Json, forbidExpected: bool)
    decreases v
  {
    match v
    case Arr(items) => forall i :: 0 <= i < |items| ==> KeysAllowed(items[i], forbidExpected)
    case Obj(members) =>
      forall k :: k in members ==> KeyAllowed(k, forbidExpected) && KeysAllowed(members[k], forbidExpected)
    case _ => true
  }

  lemma {:induction false} SecondPass(t: Tree, depth: nat, nums: Numerals, forbidExpected: bool)
    requires Admitted(t, depth, nums)
    ensures IsInput(Meaning(t, depth, nums), forbidExpected, depth)
        <==> KeysAllowed(Meaning(t, depth, nums), forbidExpected)
    decreases t
  {
    match t
    case Array(items) =>
      SecondPassItems(items, depth, nums, forbidExpected);
    case Object(members) =>
      SecondPassMembers(members, {}, depth, nums, forbidExpected);
    case _ =>
  }

  lemma {:induction false} SecondPassItems(items: Items, depth: nat, nums: Numerals, forbidExpected: bool)
    requires AdmittedItems(items, depth, nums)
    ensures forall v :: v in ItemValues(items, depth, nums) ==>
              (IsInput(v, forbidExpected, depth + 1) <==> KeysAllowed(v, forbidExpected))
    decreases items
  {
    SecondPass(items.item, depth + 1, nums, forbidExpected);
    if items.MoreItems? { SecondPassItems(items.tail, depth, nums, forbidExpected); }
  }

  lemma {:induction false} SecondPassMembers(members: Members, used: set<Text>, depth: nat, nums: Numerals,
                                             forbidExpected: bool)
    requires AdmittedMembers(members, used, depth, nums)
    ensures forall k :: k in MemberValues(members, used, depth, nums) ==>
              var v := MemberValues(members, used, depth, nums)[k];
              WellFormed(k) && (IsInput(v, forbidExpected, depth + 1) <==> KeysAllowed(v, forbidExpected))
    decreases members
  {
    var name := StringValue(members.member.name);
    SecondPassMember(members.member, depth, nums, forbidExpected);
    if members.MoreMembers? { SecondPassMembers(members.tail, used + {name}, depth, nums, forbidExpected); }
    hide IsInput, KeysAllowed, StringValue, WellFormed;
  }

  lemma {:induction false} SecondPassMember(m: Member, depth: nat, nums: Numerals, forbidExpected: bool)
    requires AdmittedMember(m, depth, nums)
    ensures IsInput(MemberValue(m, depth, nums), forbidExpected, depth + 1)
        <==> KeysAllowed(MemberValue(m, depth, nums), forbidExpected)
    decreases m
  {
    SecondPass(m.value, depth + 1, nums, forbidExpected);
  }

  /** Complete: every derivation without a forbidden member name is accepted, as its meaning. */
  lemma DerivationsAreAccepted(text: Text, lead: Text, t: Tree, trail: Text, forbidExpected: bool, nums: Numerals)
    requires Derives(text, lead, t, trail, nums)
    ensures ParseStrict(text, forbidExpected, nums)
         == if KeysAllowed(Meaning(t, 0, nums), forbidExpected) then Ok(Meaning(t, 0, nums)) else Fail(Forbidden)
  {
    ValueAccepted(lead, t, trail, 0, nums);
    SecondPass(t, 0, nums, forbidExpected);
    SpaceSkips(trail, []);
    assert trail + [] == trail;
  }

  /** Sound: an accepted value is the meaning of a derivation of the whole text. */
  lemma AcceptedTextsDerive(text: Text, forbidExpected: bool, nums: Numerals)
    returns (lead: Text, t: Tree, trail: Text)
    requires ParseStrict(text, forbidExpected, nums).Ok?
    ensures Derives(text, lead, t, trail, nums)
    ensures ParseStrict(text, forbidExpected, nums) == Ok(Meaning(t, 0, nums))
    ensures KeysAllowed(Meaning(t, 0, nums), forbidExpected)
  {
    lead, t := AcceptedValue(text, 0, nums);
    var rest := ParseValue(text, 0, nums).rest;
    trail := SkippedSpace(rest);
    assert trail + [] == trail;
    assert rest == trail;
    SecondPass(t, 0, nums, forbidExpected);
  }

  /** The reader accepts exactly the admitted texts. */
  lemma AcceptedExactlyWhen(text: Text, forbidExpected: bool, nums: Numerals, v: Json)
    ensures ParseStrict(text, forbidExpected, nums) == Ok(v)
        <==> exists lead, t, trail :: Derives(text, lead, t, trail, nums)
               && Meaning(t, 0, nums) == v && KeysAllowed(v, forbidExpected)
  {
    if ParseStrict(text, forbidExpected, nums) == Ok(v) {
      var lead, t, trail := AcceptedTextsDerive(text, forbidExpected, nums);
    }
    forall lead, t, trail | Derives(text, lead, t, trail, nums)
      && Meaning(t, 0, nums) == v && KeysAllowed(v, forbidExpected)
      ensures ParseStrict(text, forbidExpected, nums) == Ok(v)
    {
      DerivationsAreAccepted(text, lead, t, trail, forbidExpected, nums);
    }
  }
}
