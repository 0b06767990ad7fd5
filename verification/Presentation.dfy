/**
 * SD-JWT presentation validation (packages/pulse-conformance-evaluator/python/presentation.py), after
 * section 7.1 of RFC 9901: what the walk over a payload and the disclosures it refers to accepts.
 */
module Presentation {
  import opened Prelude

  datatype Value =
    | Null
    | Bool(flag: bool)
    | Number(number: int)
    | Text(text: string)
    | List(items: seq<Value>)
    | Dict(members: map<string, Value>)

  /** A presented disclosure of an array element or of an object member. */
  datatype Disclosure = Element(value: Value) | Member(name: string, value: Value)

  type Disclosures = map<string, Disclosure>

  const SD := "_sd"
  const SD_ALG := "_sd_alg"
  const DOTS := "..."
  const MAX_DEPTH := 100

  predicate IsDigit(c: char) {
    'A' <= c <= 'Z' || 'a' <= c <= 'z' || '0' <= c <= '9' || c == '-' || c == '_'
  }

  /** The canonical base64url form of 32 bytes: 43 characters, the last with its two spare bits clear. */
  predicate IsDigest(s: string) {
    && |s| == 43
    && (forall i :: 0 <= i < 43 ==> IsDigit(s[i]))
    && s[42] in "AEIMQUYcgkosw048"
  }

  predicate IsPlaceholder(v: Value) { v.Dict? && DOTS in v.members }

  function Names(members: map<string, Value>): set<string> { members.Keys - {SD, SD_ALG} }

  function Digests(members: map<string, Value>): seq<Value> {
    if SD in members && members[SD].List? then members[SD].items else []
  }

  // ----- shape, with presented disclosures unfolded in place

  predicate Shape(D: Disclosures, v: Value, depth: nat)
    decreases 101 - depth, 3
  {
    && depth <= MAX_DEPTH
    && match v {
         case List(items) => forall i :: 0 <= i < |items| ==> ItemShape(D, items[i], depth)
         case Dict(members) =>
           && DOTS !in members && (depth > 0 ==> SD_ALG !in members)
           && (SD in members ==> members[SD].List?)
           && (forall name :: name in Names(members) ==> Shape(D, members[name], depth + 1))
           && (forall i :: 0 <= i < |Digests(members)| ==> RefShape(D, Digests(members)[i], true, depth))
           && NoShadowing(D, Digests(members), Names(members))
         case _ => true
       }
  }

  predicate ItemShape(D: Disclosures, child: Value, depth: nat)
    requires depth <= MAX_DEPTH
    decreases 101 - depth, 2
  {
    if IsPlaceholder(child)
    then child.members.Keys == {DOTS} && RefShape(D, child.members[DOTS], false, depth)
    else Shape(D, child, depth + 1)
  }

  /** A reference is a digest, and what is presented for it is of the right kind and shape. */
  predicate RefShape(D: Disclosures, ref: Value, member: bool, depth: nat)
    requires depth <= MAX_DEPTH
    decreases 101 - depth, 1
  {
    && ref.Text? && IsDigest(ref.text)
    && (ref.text in D ==> D[ref.text].Member? == member && Shape(D, D[ref.text].value, depth + 1))
  }

  predicate Discloses(D: Disclosures, ref: Value) {
    ref.Text? && ref.text in D && D[ref.text].Member?
  }

  /** No disclosed member name repeats a plain one or an earlier disclosed one. */
  predicate NoShadowing(D: Disclosures, digests: seq<Value>, names: set<string>) {
    && (forall i :: 0 <= i < |digests| && Discloses(D, digests[i]) ==> D[digests[i].text].name !in names)
    && (forall i, j :: 0 <= i < j < |digests| && Discloses(D, digests[i]) && Discloses(D, digests[j])
          ==> D[digests[i].text].name != D[digests[j].text].name)
  }

  // ----- references, with presented disclosures unfolded in place

  ghost function Refs(D: Disclosures, v: Value, depth: nat): multiset<string>
    decreases 101 - depth, 3
  {
    if depth > MAX_DEPTH then multiset{}
    else match v
      case List(items) => ItemRefs(D, items, depth)
      case Dict(members) =>
        NameRefs(D, members, Names(members), depth) + DigestRefs(D, Digests(members), depth)
      case _ => multiset{}
  }

  ghost function ItemRefs(D: Disclosures, items: seq<Value>, depth: nat): multiset<string>
    requires depth <= MAX_DEPTH
    decreases 101 - depth, 2, |items|
  {
    if items == [] then multiset{} else ItemRef(D, items[0], depth) + ItemRefs(D, items[1..], depth)
  }

  ghost function ItemRef(D: Disclosures, child: Value, depth: nat): multiset<string>
    requires depth <= MAX_DEPTH
    decreases 101 - depth, 1
  {
    if IsPlaceholder(child) then Follow(D, child.members[DOTS], depth) else Refs(D, child, depth + 1)
  }

  ghost function NameRefs(D: Disclosures, members: map<string, Value>, names: set<string>, depth: nat): multiset<string>
    requires depth <= MAX_DEPTH && names <= members.Keys
    decreases 101 - depth, 2, |names|
  {
    if names == {} then multiset{}
    else
      var name :| name in names;
      Refs(D, members[name], depth + 1) + NameRefs(D, members, names - {name}, depth)
  }

  ghost function DigestRefs(D: Disclosures, digests: seq<Value>, depth: nat): multiset<string>
    requires depth <= MAX_DEPTH
    decreases 101 - depth, 2, |digests|
  {
    if digests == [] then multiset{} else Follow(D, digests[0], depth) + DigestRefs(D, digests[1..], depth)
  }

  ghost function Follow(D: Disclosures, ref: Value, depth: nat): multiset<string>
    requires depth <= MAX_DEPTH
    decreases 101 - depth, 0
  {
    if !ref.Text? then multiset{}
    else multiset{ref.text} + if ref.text in D then Refs(D, D[ref.text].value, depth + 1) else multiset{}
  }

  // ----- the set of digests met so far

  function Met(refs: multiset<string>): set<string> { set x | x in refs }

  /** Nothing is met twice, and nothing that was met before. */
  ghost predicate Fits(refs: multiset<string>, seen: set<string>) {
    forall x :: refs[x] <= if x in seen then 0 else 1
  }

  lemma FitsTogether(a: multiset<string>, b: multiset<string>, seen: set<string>)
    ensures Fits(a + b, seen) <==> Fits(a, seen) && Fits(b, seen + Met(a))
    ensures Met(a + b) == Met(a) + Met(b)
  {
    assert forall x :: (a + b)[x] == a[x] + b[x];
    if Fits(a + b, seen) {
      assert forall x :: a[x] <= (a + b)[x] && b[x] <= (a + b)[x];
    }
    if Fits(a, seen) && Fits(b, seen + Met(a)) {
      forall x ensures (a + b)[x] <= if x in seen then 0 else 1 {
        assert x in a ==> x in seen + Met(a);
      }
    }
  }

  lemma {:induction false} NameRefsTake(D: Disclosures, members: map<string, Value>, names: set<string>,
                                        name: string, depth: nat)
    requires depth <= MAX_DEPTH && names <= members.Keys && name in names
    ensures NameRefs(D, members, names, depth)
         == Refs(D, members[name], depth + 1) + NameRefs(D, members, names - {name}, depth)
    decreases |names|
  {
    var first: string :| first in names
      && NameRefs(D, members, names, depth)
      == Refs(D, members[first], depth + 1) + NameRefs(D, members, names - {first}, depth);
    if first != name {
      NameRefsTake(D, members, names - {first}, name, depth);
      NameRefsTake(D, members, names - {name}, first, depth);
      assert names - {first} - {name} == names - {name} - {first};
    }
  }

  // ----- the walk itself

  class Walker {
    const disclosures: Disclosures
    var seen: set<string>
    var used: set<string>

    constructor (disclosures: Disclosures)
      ensures this.disclosures == disclosures && seen == {} && used == {}
    {
      this.disclosures, seen, used := disclosures, {}, {};
    }

    ghost predicate Valid()
      reads this
    {
      used == seen * disclosures.Keys
    }

    /** How many presented disclosures are still unused; following one lowers it. */
    ghost function Unused(): nat
      reads this
    {
      |disclosures.Keys - used|
    }

    /** Success means: the part has its shape, its references fit, and they are now met. */
    twostate predicate Walked(ok: bool, shape: bool, refs: multiset<string>)
      reads this
    {
      && (ok <==> shape && Fits(refs, old(seen)))
      && (ok ==> seen == old(seen) + Met(refs))
    }

    lemma FewerUnused(before: set<string>, after: set<string>)
      requires before <= after
      ensures |disclosures.Keys - after| <= |disclosures.Keys - before|
      ensures (exists d :: d in disclosures && d in after && d !in before) ==>
                |disclosures.Keys - after| < |disclosures.Keys - before|
    {
      Smaller(disclosures.Keys - after, disclosures.Keys - before);
      if d :| d in disclosures && d in after && d !in before {
        Smaller(disclosures.Keys - after, disclosures.Keys - before - {d});
      }
    }

    method Consume(ref: Value, member: bool) returns (ok: bool, found: Option<Disclosure>)
      requires Valid()
      modifies this
      ensures Valid() && old(used) <= used && old(seen) <= seen
      ensures ok <==> && ref.Text? && IsDigest(ref.text) && ref.text !in old(seen)
                      && (ref.text in disclosures ==> disclosures[ref.text].Member? == member)
      ensures ok ==> seen == old(seen) + {ref.text}
      ensures ok ==> found == if ref.text in disclosures then Some(disclosures[ref.text]) else None
      ensures ok && found.Some? ==> Unused() < old(Unused())
    {
      ok, found := false, None;
      if !ref.Text? || !IsDigest(ref.text) || ref.text in seen {
        return;
      }
      seen := seen + {ref.text};
      if ref.text in disclosures {
        used := used + {ref.text};
        FewerUnused(old(used), used);
        if disclosures[ref.text].Member? != member {
          return;
        }
        found := Some(disclosures[ref.text]);
      }
      ok := true;
    }

    /** One digest, and what is presented for it. */
    method Resolve(ref: Value, member: bool, names: set<string>, depth: nat)
      returns (ok: bool, more: set<string>)
      requires Valid() && depth <= MAX_DEPTH
      modifies this
      ensures Valid() && old(used) <= used
      ensures Walked(ok, RefShape(disclosures, ref, member, depth) && !Clashes(disclosures, ref, names),
                     Follow(disclosures, ref, depth))
      ensures ok ==> more == names + Disclosed(disclosures, ref)
      decreases Unused(), ref, 4
    {
      var found: Option<Disclosure>;
      ok, found := Consume(ref, member);
      ghost var met := ok;
      more := names;
      if ok && found.Some? {
        if found.value.Member? && found.value.name in names {
          ok := false;
        } else {
          if found.value.Member? {
            more := names + {found.value.name};
          }
          ok := Walk(found.value.value, depth + 1);
        }
      }
      ResolveEnds(disclosures, ref, member, names, depth, old(seen), met, ok, seen);
      hide RefShape, Clashes, Shape, Refs, Follow, Fits, Met, IsDigest;
    }

    method Walk(v: Value, depth: nat) returns (ok: bool)
      requires Valid()
      modifies this
      ensures Valid() && old(used) <= used
      ensures Walked(ok, Shape(disclosures, v, depth), Refs(disclosures, v, depth))
      decreases Unused(), v, 2
    {
      if depth > MAX_DEPTH {
        return false;
      }
      match v {
        case List(items) => ok := WalkList(v, depth);
        case Dict(members) => ok := WalkDict(v, depth);
        case _ => ok := true;
      }
    }

    method WalkList(v: Value, depth: nat) returns (ok: bool)
      requires Valid() && depth <= MAX_DEPTH && v.List?
      modifies this
      ensures Valid() && old(used) <= used
      ensures Walked(ok, ItemShapes(disclosures, v.items, depth), ItemRefs(disclosures, v.items, depth))
      decreases Unused(), v, 0
    {
      hide Shape, Refs, ItemShape, ItemRef, ItemRefs, ItemShapes, Fits, Met, ItemsRemain;
      var items := v.items;
      var k := 0;
      ItemsStart(disclosures, items, depth, seen);
      while k < |items|
        invariant 0 <= k <= |items| && Valid() && old(used) <= used
        invariant ItemsRemain(disclosures, items, depth, old(seen), k, seen)
      {
        FewerUnused(old(used), used);
        ghost var met := seen;
        ok := WalkItem(items[k], depth);
        ItemsAdvance(disclosures, items, depth, old(seen), k, met, ok, seen);
        if !ok {
          return;
        }
        k := k + 1;
      }
      ItemsEnd(disclosures, items, depth, old(seen), seen);
      ok := true;
    }

    method WalkItem(child: Value, depth: nat) returns (ok: bool)
      requires Valid() && depth <= MAX_DEPTH
      modifies this
      ensures Valid() && old(used) <= used
      ensures Walked(ok, ItemShape(disclosures, child, depth), ItemRef(disclosures, child, depth))
      decreases Unused(), child, 3
    {
      if IsPlaceholder(child) {
        if child.members.Keys != {DOTS} {
          return false;
        }
        var names;
        ok, names := Resolve(child.members[DOTS], false, {}, depth);
      } else {
        ok := Walk(child, depth + 1);
      }
    }

    method WalkDict(v: Value, depth: nat) returns (ok: bool)
      requires Valid() && depth <= MAX_DEPTH && v.Dict?
      modifies this
      ensures Valid() && old(used) <= used
      ensures Walked(ok, Shape(disclosures, v, depth), Refs(disclosures, v, depth))
      decreases Unused(), v, 1
    {
      DictParts(disclosures, v, depth);
      DictFits(disclosures, v, depth, seen);
      hide Shape, Refs, NameShapes, DigestShapes, NameRefs, DigestRefs, Fits, Met, Names, Digests;
      ok := DOTS !in v.members && !(depth > 0 && SD_ALG in v.members);
      if ok {
        ok := WalkNames(v, depth);
        FewerUnused(old(used), used);
        if ok && SD in v.members && !v.members[SD].List? {
          ok := false;
        }
        if ok {
          ok := WalkDigests(v, depth);
        }
      }
    }

    /** The plain members, in whatever order the set yields them. */
    method WalkNames(v: Value, depth: nat) returns (ok: bool)
      requires Valid() && depth <= MAX_DEPTH && v.Dict?
      modifies this
      ensures Valid() && old(used) <= used
      ensures Walked(ok, NameShapes(disclosures, v.members, Names(v.members), depth),
                     NameRefs(disclosures, v.members, Names(v.members), depth))
      decreases Unused(), v, 0
    {
      hide Shape, Refs, NameRefs, NameShapes, Fits, Met;
      var left := Names(v.members);
      while left != {}
        invariant left <= Names(v.members) && Valid() && old(used) <= used
        invariant (NameShapes(disclosures, v.members, Names(v.members), depth)
                   && Fits(NameRefs(disclosures, v.members, Names(v.members), depth), old(seen)))
          <==> (NameShapes(disclosures, v.members, left, depth)
                && Fits(NameRefs(disclosures, v.members, left, depth), seen))
        invariant seen + Met(NameRefs(disclosures, v.members, left, depth))
          == old(seen) + Met(NameRefs(disclosures, v.members, Names(v.members), depth))
        decreases |left|
      {
        var name :| name in left;
        NameStep(disclosures, v.members, left, name, depth, seen);
        FewerUnused(old(used), used);
        ok := Walk(v.members[name], depth + 1);
        if !ok {
          return;
        }
        left := left - {name};
      }
      NothingLeft(disclosures, v.members, depth, seen);
      ok := true;
    }

    method WalkDigests(v: Value, depth: nat) returns (ok: bool)
      requires Valid() && depth <= MAX_DEPTH && v.Dict?
      modifies this
      ensures Valid() && old(used) <= used
      ensures Walked(ok, DigestShapes(disclosures, Digests(v.members), Names(v.members), depth),
                     DigestRefs(disclosures, Digests(v.members), depth))
      decreases Unused(), v, 0
    {
      hide Shape, Refs, RefShape, Follow, DigestRefs, DigestShapes, Fits, Met, Clashes, Disclosed, DigestsRemain;
      var digests := Digests(v.members);
      var names := Names(v.members);
      var k := 0;
      DigestsStart(disclosures, digests, names, depth, seen);
      while k < |digests|
        invariant 0 <= k <= |digests| && Valid() && old(used) <= used
        invariant DigestsRemain(disclosures, digests, Names(v.members), depth, old(seen), k, names, seen)
      {
        FewerUnused(old(used), used);
        ghost var met, before := seen, names;
        ok, names := Resolve(digests[k], true, names, depth);
        DigestsAdvance(disclosures, digests, Names(v.members), depth, old(seen), k, before, met, ok, names, seen);
        if !ok {
          return;
        }
        k := k + 1;
      }
      DigestsEnd(disclosures, digests, Names(v.members), depth, old(seen), names, seen);
      ok := true;
    }
  }

  // ----- one step of each loop, on values

  predicate Clashes(D: Disclosures, ref: Value, names: set<string>) {
    Discloses(D, ref) && D[ref.text].name in names
  }

  function Disclosed(D: Disclosures, ref: Value): set<string> {
    if Discloses(D, ref) then {D[ref.text].name} else {}
  }

  predicate ItemShapes(D: Disclosures, items: seq<Value>, depth: nat)
    requires depth <= MAX_DEPTH
  {
    forall i :: 0 <= i < |items| ==> ItemShape(D, items[i], depth)
  }

  predicate NameShapes(D: Disclosures, members: map<string, Value>, names: set<string>, depth: nat)
    requires depth <= MAX_DEPTH && names <= members.Keys
  {
    forall name :: name in names ==> Shape(D, members[name], depth + 1)
  }

  predicate DigestShapes(D: Disclosures, digests: seq<Value>, names: set<string>, depth: nat)
    requires depth <= MAX_DEPTH
  {
    && (forall i :: 0 <= i < |digests| ==> RefShape(D, digests[i], true, depth))
    && NoShadowing(D, digests, names)
  }

  lemma ItemStep(D: Disclosures, items: seq<Value>, depth: nat, seen: set<string>)
    requires depth <= MAX_DEPTH && items != []
    ensures ItemShapes(D, items, depth) <==> ItemShape(D, items[0], depth) && ItemShapes(D, items[1..], depth)
    ensures var a, b := ItemRef(D, items[0], depth), ItemRefs(D, items[1..], depth);
            && (Fits(ItemRefs(D, items, depth), seen) <==> Fits(a, seen) && Fits(b, seen + Met(a)))
            && Met(ItemRefs(D, items, depth)) == Met(a) + Met(b)
  {
    FitsTogether(ItemRef(D, items[0], depth), ItemRefs(D, items[1..], depth), seen);
    hide ItemShape;
    assert forall i :: 0 < i < |items| ==> items[i] == items[1..][i - 1];
  }

  lemma NameStep(D: Disclosures, members: map<string, Value>, names: set<string>, name: string, depth: nat,
                 seen: set<string>)
    requires depth <= MAX_DEPTH && names <= members.Keys && name in names
    ensures NameShapes(D, members, names, depth)
       <==> Shape(D, members[name], depth + 1) && NameShapes(D, members, names - {name}, depth)
    ensures var a, b := Refs(D, members[name], depth + 1), NameRefs(D, members, names - {name}, depth);
            && (Fits(NameRefs(D, members, names, depth), seen) <==> Fits(a, seen) && Fits(b, seen + Met(a)))
            && Met(NameRefs(D, members, names, depth)) == Met(a) + Met(b)
  {
    NameRefsTake(D, members, names, name, depth);
    FitsTogether(Refs(D, members[name], depth + 1), NameRefs(D, members, names - {name}, depth), seen);
  }

  lemma DictParts(D: Disclosures, v: Value, depth: nat)
    requires depth <= MAX_DEPTH && v.Dict?
    ensures Shape(D, v, depth)
       <==> && DOTS !in v.members && (depth > 0 ==> SD_ALG !in v.members)
            && (SD in v.members ==> v.members[SD].List?)
            && NameShapes(D, v.members, Names(v.members), depth)
            && DigestShapes(D, Digests(v.members), Names(v.members), depth)
    ensures Refs(D, v, depth)
         == NameRefs(D, v.members, Names(v.members), depth) + DigestRefs(D, Digests(v.members), depth)
  {
    hide NoShadowing, RefShape, NameRefs, DigestRefs;
  }

  lemma DictFits(D: Disclosures, v: Value, depth: nat, seen: set<string>)
    requires depth <= MAX_DEPTH && v.Dict?
    ensures var a, b := NameRefs(D, v.members, Names(v.members), depth), DigestRefs(D, Digests(v.members), depth);
            && (Fits(Refs(D, v, depth), seen) <==> Fits(a, seen) && Fits(b, seen + Met(a)))
            && seen + Met(Refs(D, v, depth)) == seen + Met(a) + Met(b)
  {
    FitsTogether(NameRefs(D, v.members, Names(v.members), depth), DigestRefs(D, Digests(v.members), depth), seen);
  }

  lemma DigestStep(D: Disclosures, digests: seq<Value>, names: set<string>, depth: nat, seen: set<string>)
    requires depth <= MAX_DEPTH && digests != []
    ensures DigestShapes(D, digests, names, depth)
       <==> && RefShape(D, digests[0], true, depth) && !Clashes(D, digests[0], names)
            && DigestShapes(D, digests[1..], names + Disclosed(D, digests[0]), depth)
    ensures var a, b := Follow(D, digests[0], depth), DigestRefs(D, digests[1..], depth);
            && (Fits(DigestRefs(D, digests, depth), seen) <==> Fits(a, seen) && Fits(b, seen + Met(a)))
            && Met(DigestRefs(D, digests, depth)) == Met(a) + Met(b)
  {
    hide RefShape, NoShadowing, Fits, Met, Follow, Clashes, Disclosed, DigestRefs, DigestShapes;
    FitsTogether(Follow(D, digests[0], depth), DigestRefs(D, digests[1..], depth), seen);
    DigestShapesSplit(D, digests, names, depth);
    DigestRefsSplit(D, digests, depth);
  }

  lemma DigestShapesSplit(D: Disclosures, digests: seq<Value>, names: set<string>, depth: nat)
    requires depth <= MAX_DEPTH && digests != []
    ensures DigestShapes(D, digests, names, depth)
       <==> && RefShape(D, digests[0], true, depth) && !Clashes(D, digests[0], names)
            && DigestShapes(D, digests[1..], names + Disclosed(D, digests[0]), depth)
  {
    ShadowStep(D, digests, names);
    hide RefShape, NoShadowing, Clashes, Disclosed;
    var tail := digests[1..];
    assert forall i :: 0 < i < |digests| ==> digests[i] == tail[i - 1];
    assert forall i :: 0 <= i < |tail| ==> tail[i] == digests[i + 1];
  }

  lemma DigestRefsSplit(D: Disclosures, digests: seq<Value>, depth: nat)
    requires depth <= MAX_DEPTH && digests != []
    ensures DigestRefs(D, digests, depth) == Follow(D, digests[0], depth) + DigestRefs(D, digests[1..], depth)
  {
  }

  lemma ShadowStep(D: Disclosures, digests: seq<Value>, names: set<string>)
    requires digests != []
    ensures NoShadowing(D, digests, names)
       <==> !Clashes(D, digests[0], names) && NoShadowing(D, digests[1..], names + Disclosed(D, digests[0]))
  {
    hide Discloses;
    var tail := digests[1..];
    assert forall i :: 0 < i < |digests| ==> digests[i] == tail[i - 1];
    assert forall i :: 0 <= i < |tail| ==> tail[i] == digests[i + 1];
  }

  /** The items from the k-th on decide about all of them, and lead to the same digests met. */
  ghost predicate ItemsRemain(D: Disclosures, items: seq<Value>, depth: nat, before: set<string>, k: nat,
                              seen: set<string>)
    requires depth <= MAX_DEPTH && k <= |items|
  {
    && (ItemShapes(D, items, depth) && Fits(ItemRefs(D, items, depth), before)
        <==> ItemShapes(D, items[k..], depth) && Fits(ItemRefs(D, items[k..], depth), seen))
    && seen + Met(ItemRefs(D, items[k..], depth)) == before + Met(ItemRefs(D, items, depth))
  }

  lemma ItemsStart(D: Disclosures, items: seq<Value>, depth: nat, seen: set<string>)
    requires depth <= MAX_DEPTH
    ensures ItemsRemain(D, items, depth, seen, 0, seen)
  {
    assert items[0..] == items;
  }

  lemma ItemsAdvance(D: Disclosures, items: seq<Value>, depth: nat, before: set<string>, k: nat, seen: set<string>,
                     ok: bool, after: set<string>)
    requires depth <= MAX_DEPTH && k < |items| && ItemsRemain(D, items, depth, before, k, seen)
    requires ok <==> ItemShape(D, items[k], depth) && Fits(ItemRef(D, items[k], depth), seen)
    requires ok ==> after == seen + Met(ItemRef(D, items[k], depth))
    ensures ok ==> ItemsRemain(D, items, depth, before, k + 1, after)
    ensures !ok ==> !(ItemShapes(D, items, depth) && Fits(ItemRefs(D, items, depth), before))
  {
    hide ItemShape, ItemRef, ItemRefs, ItemShapes, Fits, Met;
    ItemStep(D, items[k..], depth, seen);
    assert items[k..][1..] == items[k + 1..];
  }

  lemma ItemsEnd(D: Disclosures, items: seq<Value>, depth: nat, before: set<string>, seen: set<string>)
    requires depth <= MAX_DEPTH && ItemsRemain(D, items, depth, before, |items|, seen)
    ensures ItemShapes(D, items, depth) && Fits(ItemRefs(D, items, depth), before)
    ensures seen == before + Met(ItemRefs(D, items, depth))
  {
    hide ItemShape, ItemRef;
    assert items[|items|..] == [];
    NothingLeft(D, map[], depth, seen);
  }

  /** The same for the digests of an object, with the names disclosed so far. */
  ghost predicate DigestsRemain(D: Disclosures, digests: seq<Value>, plain: set<string>, depth: nat,
                                before: set<string>, k: nat, names: set<string>, seen: set<string>)
    requires depth <= MAX_DEPTH && k <= |digests|
  {
    && (DigestShapes(D, digests, plain, depth) && Fits(DigestRefs(D, digests, depth), before)
        <==> DigestShapes(D, digests[k..], names, depth) && Fits(DigestRefs(D, digests[k..], depth), seen))
    && seen + Met(DigestRefs(D, digests[k..], depth)) == before + Met(DigestRefs(D, digests, depth))
  }

  lemma DigestsStart(D: Disclosures, digests: seq<Value>, names: set<string>, depth: nat, seen: set<string>)
    requires depth <= MAX_DEPTH
    ensures DigestsRemain(D, digests, names, depth, seen, 0, names, seen)
  {
    assert digests[0..] == digests;
  }

  lemma DigestsAdvance(D: Disclosures, digests: seq<Value>, plain: set<string>, depth: nat, before: set<string>, k: nat,
                       names: set<string>, seen: set<string>, ok: bool, more: set<string>, after: set<string>)
    requires depth <= MAX_DEPTH && k < |digests| && DigestsRemain(D, digests, plain, depth, before, k, names, seen)
    requires ok <==> RefShape(D, digests[k], true, depth) && !Clashes(D, digests[k], names)
                     && Fits(Follow(D, digests[k], depth), seen)
    requires ok ==> after == seen + Met(Follow(D, digests[k], depth)) && more == names + Disclosed(D, digests[k])
    ensures ok ==> DigestsRemain(D, digests, plain, depth, before, k + 1, more, after)
    ensures !ok ==> !(DigestShapes(D, digests, plain, depth) && Fits(DigestRefs(D, digests, depth), before))
  {
    hide RefShape, Follow, DigestRefs, DigestShapes, Fits, Met, Clashes, Disclosed;
    DigestStep(D, digests[k..], names, depth, seen);
    assert digests[k..][1..] == digests[k + 1..];
  }

  lemma DigestsEnd(D: Disclosures, digests: seq<Value>, plain: set<string>, depth: nat, before: set<string>,
                   names: set<string>, seen: set<string>)
    requires depth <= MAX_DEPTH && DigestsRemain(D, digests, plain, depth, before, |digests|, names, seen)
    ensures DigestShapes(D, digests, plain, depth) && Fits(DigestRefs(D, digests, depth), before)
    ensures seen == before + Met(DigestRefs(D, digests, depth))
  {
    hide RefShape, Follow;
    assert digests[|digests|..] == [];
    NothingLeft(D, map[], depth, seen);
    NoDigestLeft(D, names, depth);
  }

  lemma NothingLeft(D: Disclosures, members: map<string, Value>, depth: nat, seen: set<string>)
    requires depth <= MAX_DEPTH
    ensures NameShapes(D, members, {}, depth) && Fits(NameRefs(D, members, {}, depth), seen)
    ensures NameRefs(D, members, {}, depth) == multiset{} && Met(multiset{}) == {}
    ensures ItemShapes(D, [], depth) && ItemRefs(D, [], depth) == multiset{} && Fits(multiset{}, seen)
    ensures DigestRefs(D, [], depth) == multiset{}
  {
  }

  lemma NoDigestLeft(D: Disclosures, names: set<string>, depth: nat)
    requires depth <= MAX_DEPTH
    ensures DigestShapes(D, [], names, depth)
  {
  }

  lemma FollowFits(D: Disclosures, ref: Value, depth: nat, seen: set<string>)
    requires depth <= MAX_DEPTH
    ensures ref.Text? && ref.text in seen ==> !Fits(Follow(D, ref, depth), seen)
    ensures ref.Text? && ref.text in D ==>
              var b := Refs(D, D[ref.text].value, depth + 1);
              && (Fits(Follow(D, ref, depth), seen) <==> ref.text !in seen && Fits(b, seen + {ref.text}))
              && Met(Follow(D, ref, depth)) == {ref.text} + Met(b)
    ensures ref.Text? && ref.text !in D ==>
              && (Fits(Follow(D, ref, depth), seen) <==> ref.text !in seen)
              && Met(Follow(D, ref, depth)) == {ref.text}
  {
    if ref.Text? {
      var a := multiset{ref.text};
      assert Met(a) == {ref.text};
      assert a[ref.text] == 1;
      var b := if ref.text in D then Refs(D, D[ref.text].value, depth + 1) else multiset{};
      FitsTogether(a, b, seen);
      assert Follow(D, ref, depth) == a + b;
      assert Fits(a, seen) <==> ref.text !in seen;
    }
  }

  /** A digest consumed and what it discloses walked, put together. */
  lemma ResolveEnds(D: Disclosures, ref: Value, member: bool, names: set<string>, depth: nat, before: set<string>,
                    met: bool, ok: bool, after: set<string>)
    requires depth <= MAX_DEPTH
    requires met <==> && ref.Text? && IsDigest(ref.text) && ref.text !in before
                      && (ref.text in D ==> D[ref.text].Member? == member)
    requires met && ref.text !in D ==> ok && after == before + {ref.text}
    requires met && ref.text in D ==>
               var d := D[ref.text];
               && (ok <==> && !(d.Member? && d.name in names) && Shape(D, d.value, depth + 1)
                           && Fits(Refs(D, d.value, depth + 1), before + {ref.text}))
               && (ok ==> after == before + {ref.text} + Met(Refs(D, d.value, depth + 1)))
    requires ok ==> met
    ensures ok <==> RefShape(D, ref, member, depth) && !Clashes(D, ref, names) && Fits(Follow(D, ref, depth), before)
    ensures ok ==> after == before + Met(Follow(D, ref, depth))
  {
    FollowFits(D, ref, depth, before);
    hide Shape, Refs, Follow, Fits, Met, IsDigest;
  }

  lemma Smaller(a: set<string>, b: set<string>)
    requires a <= b
    ensures |a| <= |b|
    decreases |b|
  {
    if b != {} {
      var x :| x in b;
      Smaller(a - {x}, b - {x});
    }
  }

  // ----- the presented disclosures, and the whole check

  datatype Token = Token(issuerJwt: string, header: Value, payload: Value, disclosures: seq<string>)

  /** JSON and JWT decoding, and the disclosure hash. */
  datatype Library = Library(jwtJson: string -> Option<(Value, Value)>, decodeJson: string -> Option<Value>,
                             digestOf: string -> string)

  function ReadDisclosure(v: Value): Option<Disclosure> {
    if !v.List? || |v.items| < 2 || |v.items| > 3 || !v.items[0].Text? then None
    else if |v.items| == 2 then Some(Element(v.items[1]))
    else if !v.items[1].Text? || v.items[1].text == SD || v.items[1].text == DOTS || v.items[1].text == SD_ALG then None
    else Some(Member(v.items[1].text, v.items[2]))
  }

  /** A disclosure of an array element is a salt and the element; one of an object member is a salt, a name that is not
      reserved, and the member's value. Nothing else is a disclosure. */
  lemma ReadsExactly(x: Value, name: string, v: Value)
    ensures ReadDisclosure(x) == Some(Element(v)) <==> exists salt :: x == List([Text(salt), v])
    ensures ReadDisclosure(x) == Some(Member(name, v))
       <==> name !in {SD, DOTS, SD_ALG} && exists salt :: x == List([Text(salt), Text(name), v])
  {
    if x.List? && |x.items| == 2 && x.items[0].Text? {
      assert x == List([Text(x.items[0].text), x.items[1]]);
    }
    if x.List? && |x.items| == 3 && x.items[0].Text? && x.items[1].Text? {
      assert x == List([Text(x.items[0].text), Text(x.items[1].text), x.items[2]]);
    }
  }

  /** The encoded text decodes to the array of that disclosure. */
  ghost predicate Encodes(encoded: string, d: Disclosure, lib: Library) {
    exists salt ::
      && lib.decodeJson(encoded)
         == Some(List(if d.Element? then [Text(salt), d.value] else [Text(salt), Text(d.name), d.value]))
      && (d.Member? ==> d.name !in {SD, DOTS, SD_ALG})
  }

  lemma OpensExactly(encoded: string, lib: Library, d: Disclosure)
    ensures Opened(encoded, lib) == Some(d) <==> Encodes(encoded, d, lib)
  {
    if lib.decodeJson(encoded).Some? {
      ReadsExactly(lib.decodeJson(encoded).value, if d.Member? then d.name else "", d.value);
      hide ReadDisclosure;
    }
  }

  ghost predicate IsDisclosure(encoded: string, lib: Library) { exists d :: Encodes(encoded, d, lib) }

  ghost predicate AllDisclose(encoded: seq<string>, lib: Library) {
    forall i :: 0 <= i < |encoded| ==> IsDisclosure(encoded[i], lib)
  }

  ghost predicate DistinctDigests(encoded: seq<string>, lib: Library) {
    forall i, j :: 0 <= i < j < |encoded| ==> lib.digestOf(encoded[i]) != lib.digestOf(encoded[j])
  }

  /** `D` holds under the digest of each text the disclosure that it encodes, and nothing else. */
  ghost predicate Holding(D: Disclosures, encoded: seq<string>, lib: Library) {
    && (forall i :: 0 <= i < |encoded| ==>
          lib.digestOf(encoded[i]) in D && Encodes(encoded[i], D[lib.digestOf(encoded[i])], lib))
    && (forall x :: x in D ==> exists i :: 0 <= i < |encoded| && lib.digestOf(encoded[i]) == x)
  }

  lemma OpensWhenDisclosing(encoded: string, lib: Library)
    ensures Opened(encoded, lib).Some? <==> IsDisclosure(encoded, lib)
  {
    hide Opened, Encodes;
    forall d ensures Opened(encoded, lib) == Some(d) <==> Encodes(encoded, d, lib) {
      OpensExactly(encoded, lib, d);
    }
    if Opened(encoded, lib).Some? {
      assert Opened(encoded, lib) == Some(Opened(encoded, lib).value);
      assert Encodes(encoded, Opened(encoded, lib).value, lib);
    }
  }

  function Opened(encoded: string, lib: Library): Option<Disclosure> {
    match lib.decodeJson(encoded)
    case None => None
    case Some(v) => ReadDisclosure(v)
  }

  /** Every disclosure is well formed and no two share a digest. */
  ghost predicate Readable(encoded: seq<string>, lib: Library) {
    && (forall i :: 0 <= i < |encoded| ==> Opened(encoded[i], lib).Some?)
    && (forall i, j :: 0 <= i < j < |encoded| ==> lib.digestOf(encoded[i]) != lib.digestOf(encoded[j]))
  }

  /** `D` holds exactly the given disclosures, each under its own digest. */
  ghost predicate Presents(D: Disclosures, encoded: seq<string>, lib: Library) {
    && (forall i :: 0 <= i < |encoded| ==>
          lib.digestOf(encoded[i]) in D && Opened(encoded[i], lib) == Some(D[lib.digestOf(encoded[i])]))
    && (forall d :: d in D ==> exists i :: 0 <= i < |encoded| && lib.digestOf(encoded[i]) == d)
  }

  /** The readable disclosures by digest. */
  ghost function Presented(encoded: seq<string>, lib: Library): Disclosures
    requires Readable(encoded, lib)
  {
    map i | 0 <= i < |encoded| :: lib.digestOf(encoded[i]) := Opened(encoded[i], lib).value
  }

  lemma OnlyPresented(D: Disclosures, encoded: seq<string>, lib: Library)
    requires Readable(encoded, lib) && Presents(D, encoded, lib)
    ensures D == Presented(encoded, lib)
  {
    hide Opened;
    var P := Presented(encoded, lib);
    forall i | 0 <= i < |encoded| ensures P[lib.digestOf(encoded[i])] == D[lib.digestOf(encoded[i])] {
      assert lib.digestOf(encoded[i]) in D;
    }
    assert D.Keys == P.Keys;
  }

  method ReadDisclosures(encoded: seq<string>, lib: Library) returns (r: Option<Disclosures>)
    ensures r.Some? <==> Readable(encoded, lib)
    ensures r.Some? ==> r.value == Presented(encoded, lib)
    ensures r.Some? <==> AllDisclose(encoded, lib) && DistinctDigests(encoded, lib)
    ensures r.Some? ==> Holding(r.value, encoded, lib)
  {
    DisclosuresEncoded(encoded, lib);
    hide AllDisclose, DistinctDigests, Holding;
    var disclosures: Disclosures := map[];
    for k := 0 to |encoded|
      invariant Readable(encoded[..k], lib) && Presents(disclosures, encoded[..k], lib)
    {
      var d := Opened(encoded[k], lib);
      var digest := lib.digestOf(encoded[k]);
      if d.None? || digest in disclosures {
        Stuck(encoded, k, lib, disclosures);
        return None;
      }
      Extends(encoded, k, lib, disclosures, d.value);
      disclosures := disclosures[digest := d.value];
    }
    assert encoded[..|encoded|] == encoded;
    OnlyPresented(disclosures, encoded, lib);
    r := Some(disclosures);
  }

  /** What is readable, and what is presented then, in terms of the decoded arrays. */
  lemma DisclosuresEncoded(encoded: seq<string>, lib: Library)
    ensures Readable(encoded, lib) <==> AllDisclose(encoded, lib) && DistinctDigests(encoded, lib)
    ensures Readable(encoded, lib) ==> Holding(Presented(encoded, lib), encoded, lib)
  {
    hide Opened, Encodes;
    forall i | 0 <= i < |encoded| ensures Opened(encoded[i], lib).Some? <==> IsDisclosure(encoded[i], lib) {
      OpensWhenDisclosing(encoded[i], lib);
    }
    hide IsDisclosure;
    if Readable(encoded, lib) {
      forall i | 0 <= i < |encoded|
        ensures Encodes(encoded[i], Presented(encoded, lib)[lib.digestOf(encoded[i])], lib)
      {
        OpensExactly(encoded[i], lib, Opened(encoded[i], lib).value);
      }
    }
  }

  lemma OnlyOneHolds(D: Disclosures, encoded: seq<string>, lib: Library)
    requires Readable(encoded, lib) && Holding(D, encoded, lib)
    ensures D == Presented(encoded, lib)
  {
    hide Opened, Encodes;
    forall i | 0 <= i < |encoded| ensures Opened(encoded[i], lib) == Some(D[lib.digestOf(encoded[i])]) {
      OpensExactly(encoded[i], lib, D[lib.digestOf(encoded[i])]);
    }
    OnlyPresented(D, encoded, lib);
  }

  /** The presented disclosures are those the texts encode, if each encodes one and their digests differ. */
  lemma AcceptsEncoded(encoded: seq<string>, lib: Library, payload: Value)
    ensures Readable(encoded, lib) && Accepts(Presented(encoded, lib), payload)
       <==> && AllDisclose(encoded, lib) && DistinctDigests(encoded, lib)
            && exists D :: Holding(D, encoded, lib) && Accepts(D, payload)
  {
    hide Accepts, AllDisclose, DistinctDigests;
    DisclosuresEncoded(encoded, lib);
    hide Holding, Readable, Presented;
    if Readable(encoded, lib) {
      forall D | Holding(D, encoded, lib) ensures D == Presented(encoded, lib) {
        OnlyOneHolds(D, encoded, lib);
      }
    }
  }

  lemma Stuck(encoded: seq<string>, k: nat, lib: Library, D: Disclosures)
    requires k < |encoded| && Presents(D, encoded[..k], lib)
    requires Opened(encoded[k], lib).None? || lib.digestOf(encoded[k]) in D
    ensures !Readable(encoded, lib)
  {
    if lib.digestOf(encoded[k]) in D {
      var i :| 0 <= i < k && lib.digestOf(encoded[..k][i]) == lib.digestOf(encoded[k]);
      assert encoded[..k][i] == encoded[i];
    }
  }

  lemma Extends(encoded: seq<string>, k: nat, lib: Library, D: Disclosures, d: Disclosure)
    requires k < |encoded| && Opened(encoded[k], lib) == Some(d) && lib.digestOf(encoded[k]) !in D
    requires Readable(encoded[..k], lib) && Presents(D, encoded[..k], lib)
    ensures Readable(encoded[..k + 1], lib)
    ensures Presents(D[lib.digestOf(encoded[k]) := d], encoded[..k + 1], lib)
  {
    hide Opened;
    var s, t := encoded[..k], encoded[..k + 1];
    assert forall i :: 0 <= i < k ==> t[i] == s[i];
    assert t[k] == encoded[k];
    forall x | x in D ensures exists i :: 0 <= i < |t| && lib.digestOf(t[i]) == x {
      var i :| 0 <= i < |s| && lib.digestOf(s[i]) == x;
      assert lib.digestOf(t[i]) == x;
    }
    forall i | 0 <= i < k ensures lib.digestOf(t[i]) in D {
      assert lib.digestOf(s[i]) in D;
    }
  }

  /** The walk succeeds and every presented disclosure was used. */
  ghost predicate Accepts(D: Disclosures, payload: Value) {
    && Shape(D, payload, 0) && Fits(Refs(D, payload, 0), {})
    && (forall d :: d in D ==> d in Refs(D, payload, 0))
  }

  predicate Consistent(token: Token, lib: Library) {
    && lib.jwtJson(token.issuerJwt) == Some((token.header, token.payload))
    && token.header.Dict? && token.payload.Dict?
    && (SD_ALG in token.payload.members ==> token.payload.members[SD_ALG] == Text("sha-256"))
  }

  method ValidatePresentation(token: Token, lib: Library) returns (ok: bool)
    ensures ok <==> Consistent(token, lib) && Readable(token.disclosures, lib)
                    && Accepts(Presented(token.disclosures, lib), token.payload)
    ensures ok <==> && Consistent(token, lib) && AllDisclose(token.disclosures, lib)
                    && DistinctDigests(token.disclosures, lib)
                    && exists D :: Holding(D, token.disclosures, lib) && Accepts(D, token.payload)
  {
    AcceptsEncoded(token.disclosures, lib, token.payload);
    hide AllDisclose, DistinctDigests, Holding;
    if !Consistent(token, lib) {
      return false;
    }
    var read := ReadDisclosures(token.disclosures, lib);
    if read.None? {
      return false;
    }
    var disclosures := read.value;
    var walker := new Walker(disclosures);
    ok := walker.Walk(token.payload, 0);
    if ok {
      ghost var refs := Refs(disclosures, token.payload, 0);
      assert walker.used == Met(refs) * disclosures.Keys;
      assert walker.used == disclosures.Keys <==> forall d :: d in disclosures ==> d in refs;
      ok := walker.used == disclosures.Keys;
    }
  }
}
