/** `parseStrictJson` as it runs: one cursor over the text, loops that fill a name set, an object and an array. */
module JsonReader {
  import opened Prelude
  import opened StrictJson

  class Reader {
    const text: Text
    const nums: Numerals
    var at: nat

    constructor (text: Text, nums: Numerals)
      ensures this.text == text && this.nums == nums && at == 0
    {
      this.text, this.nums, at := text, nums, 0;
    }

    predicate Valid()
      reads this
    {
      at <= |text|
    }

    ghost function Rest(): Text
      requires Valid()
      reads this
    {
      text[at..]
    }

    /** The result and the cursor agree with what the specification leaves over. */
    ghost predicate Follows<T>(r: Outcome<T>, p: Parsed<T>)
      reads this
    {
      match p
      case Failed(f) => r == Fail(f)
      case Parsed(v, rest) => r == Ok(v) && Valid() && Rest() == rest
    }

    predicate Sees(c: Unit)
      reads this
    {
      at < |text| && text[at] == c
    }

    method Advance()
      requires at < |text|
      modifies this
      ensures Valid() && at == old(at) + 1 && Rest() == old(Rest())[1..]
    {
      at := at + 1;
    }

    method Whitespace()
      requires Valid()
      modifies this
      ensures Valid() && Rest() == SkipSpace(old(Rest())) && old(at) <= at
    {
      while at < |text| && IsSpace(text[at])
        invariant old(at) <= at <= |text|
        invariant SkipSpace(text[at..]) == SkipSpace(old(Rest()))
      {
        assert text[at..][1..] == text[at + 1..];
        at := at + 1;
      }
    }

    /** The scan to the closing quote, stepping over whatever a backslash hides. */
    method CloseQuote(start: nat) returns (found: bool)
      requires at == start < |text|
      modifies this
      ensures found <==> BodyLength(text[start..]).Some?
      ensures found ==> Valid() && at == start + BodyLength(text[start..]).value + 1
    {
      hide BodyLength;
      while at < |text|
        invariant start <= at
        invariant Ending(start, at) == BodyLength(text[start..])
      {
        var character := text[at];
        EndingSteps(start, at);
        at := at + 1;
        if character == BACKSLASH {
          at := at + 1;
        } else if character == QUOTE {
          return true;
        }
      }
      EndsOpen(start, at);
      return false;
    }

    /** The quoted slice goes to the platform's parser. */
    method String() returns (r: Outcome<Text>)
      requires Valid() && Sees(QUOTE)
      modifies this
      ensures Follows(r, ParseString(old(Rest())))
      ensures r.Ok? ==> old(at) < at
    {
      var start := at;
      Advance();
      if at == |text| {
        return Fail(Syntax);
      }
      var found := CloseQuote(at);
      hide BodyLength;
      if !found {
        return Fail(Syntax);
      }
      Sliced(start, at);
      match Decode(text[start + 1..at - 1]) {
        case None => return Fail(Syntax);
        case Some(value) => return if WellFormed(value) then Ok(value) else Fail(Surrogate);
      }
    }

    /** Length of the body begun at `start`, when no quote has ended it before `i`. */
    ghost function Ending(start: nat, i: nat): Option<nat>
      requires start <= i
    {
      if i > |text| then None
      else match BodyLength(text[i..])
        case None => None
        case Some(k) => Some(k + i - start)
    }

    lemma EndingSteps(start: nat, i: nat)
      requires start <= i < |text|
      ensures text[i] == QUOTE ==> Ending(start, i) == Some(i - start)
      ensures text[i] != QUOTE ==> Ending(start, i) == Ending(start, if text[i] == BACKSLASH then i + 2 else i + 1)
    {
      assert text[i..][1..] == text[i + 1..];
      if i + 2 <= |text| { assert text[i..][2..] == text[i + 2..]; }
    }

    lemma EndsOpen(start: nat, i: nat)
      requires start <= i && i >= |text|
      ensures Ending(start, i) == None
    {
    }

    lemma Sliced(start: nat, end: nat)
      requires start + 2 <= end <= |text|
      ensures text[start..][1..] == text[start + 1..]
      ensures text[start..][1..end - start - 1] == text[start + 1..end - 1]
      ensures text[start..][end - start..] == text[end..]
    {
    }

    lemma Dropped(i: nat)
      requires i <= |text|
      ensures forall k :: 0 <= k <= |text| - i ==> text[i..][k..] == text[i + k..]
    {
    }

    method Scalar() returns (r: Outcome<Json>)
      requires Valid()
      modifies this
      ensures Follows(r, ParseScalar(old(Rest()), nums))
      ensures r.Ok? ==> old(at) < at
    {
      var s := text[at..];
      Dropped(at);
      hide NumberLength;
      if TRUE <= s {
        at := at + 4;
        return Ok(Bool(true));
      } else if FALSE <= s {
        at := at + 5;
        return Ok(Bool(false));
      } else if NULL <= s {
        at := at + 4;
        return Ok(Null);
      }
      match NumberLength(s) {
        case None => return Fail(Syntax);
        case Some(k) =>
          at := at + k;
          match nums.read(s[..k]) {
            case None => return Fail(Syntax);
            case Some(n) => return Ok(Num(n));
          }
      }
    }

    method Parse(depth: nat) returns (r: Outcome<Json>)
      requires Valid()
      modifies this
      ensures Follows(r, ParseValue(old(Rest()), depth, nums))
      ensures r.Ok? ==> old(at) < at
      decreases |text| - at, 1
    {
      if depth > MAX_DEPTH {
        return Fail(Nesting);
      }
      Whitespace();
      if Sees(QUOTE) {
        var t := String();
        match t {
          case Fail(f) => return Fail(f);
          case Ok(value) => return Ok(Str(value));
        }
      } else if Sees(OPEN_BRACE) {
        r := Members(depth);
      } else if Sees(OPEN_BRACKET) {
        r := Items(depth);
      } else {
        r := Scalar();
      }
    }

    method Members(depth: nat) returns (r: Outcome<Json>)
      requires Valid() && Sees(OPEN_BRACE)
      modifies this
      ensures var inner := SkipSpace(old(Rest())[1..]);
              Follows(r, if Starts(inner, CLOSE_BRACE) then Parsed(Obj(map[]), inner[1..])
                         else ParseMembers(inner, depth, nums, map[]))
      ensures r.Ok? ==> old(at) < at
      decreases |text| - at, 0
    {
      Advance();
      var members: map<Text, Json> := map[];
      var names: set<Text> := {};
      Whitespace();
      ghost var goal := ParseMembers(Rest(), depth, nums, map[]);
      if Sees(CLOSE_BRACE) {
        Advance();
        return Ok(Obj(members));
      }
      hide ParseValue, SkipSpace, ParseString, ParseMembers;
      while at < |text|
        invariant Valid() && old(at) < at
        invariant names == members.Keys
        invariant ParseMembers(Rest(), depth, nums, members) == goal
        decreases |text| - at
      {
        ghost var before := Rest();
        var m := MemberOf(depth, names, members);
        if m.Fail? {
          return Fail(m.failure);
        }
        names := names + {m.value.0};
        members := members[m.value.0 := m.value.1];
        if Sees(CLOSE_BRACE) {
          Advance();
          return Ok(Obj(members));
        }
        if !Sees(COMMA) {
          return Fail(Syntax);
        }
        Advance();
      }
      assert ParseMembers(Rest(), depth, nums, members) == Failed(Syntax);
      return Fail(Syntax);
    }

    /** One name, colon and value, and the white space behind them. */
    method MemberOf(depth: nat, names: set<Text>, ghost done: map<Text, Json>)
      returns (r: Outcome<(Text, Json)>)
      requires Valid() && names == done.Keys
      modifies this
      ensures r.Ok? ==> Valid() && old(at) < at
      ensures ParseMembers(old(Rest()), depth, nums, done) ==
              match r {
                case Fail(f) => Failed(f)
                case Ok((name, value)) =>
                  if Sees(CLOSE_BRACE) then Parsed(Obj(done[name := value]), Rest()[1..])
                  else if Sees(COMMA) then ParseMembers(Rest()[1..], depth, nums, done[name := value])
                  else Failed(Syntax)
              }
      decreases |text| - at, 2
    {
      hide ParseValue, SkipSpace, ParseString;
      Whitespace();
      if !Sees(QUOTE) {
        return Fail(Syntax);
      }
      var t := String();
      if t.Fail? {
        return Fail(t.failure);
      }
      var name := t.value;
      if name in names {
        return Fail(Duplicate(name));
      }
      Whitespace();
      if !Sees(COLON) {
        return Fail(Syntax);
      }
      Advance();
      var value := Parse(depth + 1);
      if value.Fail? {
        return Fail(value.failure);
      }
      Whitespace();
      return Ok((name, value.value));
    }

    method Items(depth: nat) returns (r: Outcome<Json>)
      requires Valid() && Sees(OPEN_BRACKET)
      modifies this
      ensures var inner := SkipSpace(old(Rest())[1..]);
              Follows(r, if Starts(inner, CLOSE_BRACKET) then Parsed(Arr([]), inner[1..])
                         else ParseItems(inner, depth, nums, []))
      ensures r.Ok? ==> old(at) < at
      decreases |text| - at, 0
    {
      hide ParseValue, SkipSpace;
      Advance();
      var items: seq<Json> := [];
      Whitespace();
      ghost var goal := ParseItems(Rest(), depth, nums, []);
      if Sees(CLOSE_BRACKET) {
        Advance();
        return Ok(Arr(items));
      }
      while at < |text|
        invariant Valid() && old(at) < at
        invariant ParseItems(Rest(), depth, nums, items) == goal
        decreases |text| - at
      {
        var value := Parse(depth + 1);
        if value.Fail? {
          return Fail(value.failure);
        }
        items := items + [value.value];
        Whitespace();
        if Sees(CLOSE_BRACKET) {
          Advance();
          return Ok(Arr(items));
        }
        if !Sees(COMMA) {
          return Fail(Syntax);
        }
        Advance();
      }
      return Fail(Syntax);
    }
  }

  method ParseStrictJson(text: Text, forbidExpected: bool, nums: Numerals) returns (r: Outcome<Json>)
    ensures r == ParseStrict(text, forbidExpected, nums)
  {
    var reader := new Reader(text, nums);
    assert reader.Rest() == text;
    var value := reader.Parse(0);
    if value.Fail? {
      return Fail(value.failure);
    }
    reader.Whitespace();
    if reader.at != |text| {
      return Fail(Syntax);
    }
    r := if IsInput(value.value, forbidExpected, 0) then value else Fail(Forbidden);
  }
}
