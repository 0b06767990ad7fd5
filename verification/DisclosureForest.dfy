/** What an accepted presentation looks like as a graph: a forest of disclosures rooted in the payload. */
module DisclosureForest {
  import opened Prelude
  import opened Presentation

  // ----- references written in one value, none of them followed

  ghost function RefOf(ref: Value): multiset<string> {
    if ref.Text? then multiset{ref.text} else multiset{}
  }

  ghost function Direct(v: Value): multiset<string>
    decreases v, 1
  {
    match v
    case List(items) => DirectItems(items)
    case Dict(members) => DirectNames(v, Names(members)) + DirectDigests(Digests(members))
    case _ => multiset{}
  }

  ghost function DirectItems(items: seq<Value>): multiset<string>
    decreases items, 0
  {
    if items == [] then multiset{} else DirectItem(items[0]) + DirectItems(items[1..])
  }

  ghost function DirectItem(child: Value): multiset<string>
    decreases child, 2
  {
    if IsPlaceholder(child) then RefOf(child.members[DOTS]) else Direct(child)
  }

  ghost function DirectNames(v: Value, names: set<string>): multiset<string>
    requires v.Dict? && names <= v.members.Keys
    decreases v, 0, |names|
  {
    if names == {} then multiset{}
    else
      var name :| name in names;
      Direct(v.members[name]) + DirectNames(v, names - {name})
  }

  ghost function DirectDigests(digests: seq<Value>): multiset<string>
    decreases |digests|
  {
    if digests == [] then multiset{} else RefOf(digests[0]) + DirectDigests(digests[1..])
  }

  lemma {:induction false} DirectNamesTake(v: Value, names: set<string>, name: string)
    requires v.Dict? && names <= v.members.Keys && name in names
    ensures DirectNames(v, names) == Direct(v.members[name]) + DirectNames(v, names - {name})
    decreases |names|
  {
    var first: string :| first in names
      && DirectNames(v, names) == Direct(v.members[first]) + DirectNames(v, names - {first});
    if first != name {
      DirectNamesTake(v, names - {first}, name);
      DirectNamesTake(v, names - {name}, first);
      assert names - {first} - {name} == names - {name} - {first};
    }
  }

  // ----- occurrences through the presented disclosures

  /** How often `x` is referred to from the disclosures that `refs` refers to. */
  ghost function Via(D: Disclosures, keys: seq<string>, refs: multiset<string>, x: string): nat
    requires forall k :: k in keys ==> k in D
    decreases |keys|
  {
    if keys == [] then 0
    else Through(D, refs, keys[0], x) + Via(D, keys[1..], refs, x)
  }

  ghost function Through(D: Disclosures, refs: multiset<string>, k: string, x: string): nat
    requires k in D
  {
    refs[k] * Direct(D[k].value)[x]
  }

  lemma ThroughAdds(D: Disclosures, a: multiset<string>, b: multiset<string>, k: string, x: string)
    requires k in D
    ensures Through(D, a + b, k, x) == Through(D, a, k, x) + Through(D, b, k, x)
  {
    var n := Direct(D[k].value)[x];
    assert (a[k] + b[k]) * n == a[k] * n + b[k] * n;
  }

  lemma ThroughBasics(D: Disclosures, refs: multiset<string>, k: string, x: string)
    requires k in D
    ensures refs[k] == 0 || Direct(D[k].value)[x] == 0 ==> Through(D, refs, k, x) == 0
    ensures refs[k] == 1 ==> Through(D, refs, k, x) == Direct(D[k].value)[x]
    ensures Direct(D[k].value)[x] == 1 ==> Through(D, refs, k, x) == refs[k]
  {
  }

  ghost predicate Enumerates(keys: seq<string>, D: Disclosures) {
    && (forall k :: k in keys <==> k in D)
    && NoDuplicates(keys)
  }

  lemma {:induction false} KeysOf(D: Disclosures, left: set<string>) returns (keys: seq<string>)
    ensures NoDuplicates(keys) && forall k :: k in keys <==> k in left
    decreases |left|
  {
    if left == {} {
      keys := [];
    } else {
      var k :| k in left;
      var tail := KeysOf(D, left - {k});
      keys := [k] + tail;
    }
  }

  lemma {:induction false} ViaAdds(D: Disclosures, keys: seq<string>, a: multiset<string>, b: multiset<string>, x: string)
    requires forall k :: k in keys ==> k in D
    ensures Via(D, keys, a + b, x) == Via(D, keys, a, x) + Via(D, keys, b, x)
    decreases |keys|
  {
    if keys != [] {
      ViaAdds(D, keys[1..], a, b, x);
      ThroughAdds(D, a, b, keys[0], x);
      hide Through;
    }
  }

  lemma {:induction false} ViaNone(D: Disclosures, keys: seq<string>, refs: multiset<string>, x: string)
    requires forall k :: k in keys ==> k in D && (refs[k] == 0 || Direct(D[k].value)[x] == 0)
    ensures Via(D, keys, refs, x) == 0
    decreases |keys|
  {
    if keys != [] {
      assert keys[0] in keys;
      ThroughBasics(D, refs, keys[0], x);
      hide Through;
      ViaNone(D, keys[1..], refs, x);
    }
  }

  /** Only `p` leads to `x`. */
  lemma {:induction false} ViaOne(D: Disclosures, keys: seq<string>, refs: multiset<string>, x: string, p: string)
    requires NoDuplicates(keys) && p in keys
    requires forall k :: k in keys ==> k in D && (k != p ==> refs[k] == 0 || Direct(D[k].value)[x] == 0)
    ensures Via(D, keys, refs, x) == Through(D, refs, p, x)
    decreases |keys|
  {
    assert keys[0] in keys;
    ThroughBasics(D, refs, keys[0], x);
    hide Through;
    if keys[0] == p {
      assert forall k :: k in keys[1..] ==> k != p;
      ViaNone(D, keys[1..], refs, x);
    } else {
      ViaOne(D, keys[1..], refs, x, p);
    }
  }

  lemma {:induction false} ViaSome(D: Disclosures, keys: seq<string>, refs: multiset<string>, x: string, p: string)
    requires p in keys && forall k :: k in keys ==> k in D
    ensures Via(D, keys, refs, x) >= Through(D, refs, p, x)
    decreases |keys|
  {
    hide Through;
    if keys[0] != p { ViaSome(D, keys[1..], refs, x, p); }
  }

  lemma {:induction false} ViaTwo(D: Disclosures, keys: seq<string>, refs: multiset<string>, x: string,
                                  p: string, q: string)
    requires p in keys && q in keys && p != q && forall k :: k in keys ==> k in D
    ensures Via(D, keys, refs, x) >= Through(D, refs, p, x) + Through(D, refs, q, x)
    decreases |keys|
  {
    hide Through;
    if keys[0] == p {
      ViaSome(D, keys[1..], refs, x, q);
    } else if keys[0] == q {
      ViaSome(D, keys[1..], refs, x, p);
    } else {
      ViaTwo(D, keys[1..], refs, x, p, q);
    }
  }

  // ----- unfolded references are direct ones plus those through disclosures

  lemma {:induction false} RefsSplit(D: Disclosures, keys: seq<string>, v: Value, depth: nat, x: string)
    requires Enumerates(keys, D) && Shape(D, v, depth)
    ensures Refs(D, v, depth)[x] == Direct(v)[x] + Via(D, keys, Refs(D, v, depth), x)
    decreases 101 - depth, 3
  {
    match v
    case List(items) =>
      ItemRefsSplit(D, keys, items, depth, x);
    case Dict(members) =>
      var a, b := NameRefs(D, members, Names(members), depth), DigestRefs(D, Digests(members), depth);
      NameRefsSplit(D, keys, v, Names(members), depth, x);
      DigestRefsSplit(D, keys, Digests(members), depth, x);
      ViaAdds(D, keys, a, b, x);
    case _ =>
      ViaNone(D, keys, multiset{}, x);
  }

  lemma {:induction false} ItemRefsSplit(D: Disclosures, keys: seq<string>, items: seq<Value>, depth: nat, x: string)
    requires Enumerates(keys, D) && depth <= MAX_DEPTH && ItemShapes(D, items, depth)
    ensures ItemRefs(D, items, depth)[x] == DirectItems(items)[x] + Via(D, keys, ItemRefs(D, items, depth), x)
    decreases 101 - depth, 2, 1, |items|
  {
    if items == [] {
      ViaNone(D, keys, multiset{}, x);
    } else {
      var a, b := ItemRef(D, items[0], depth), ItemRefs(D, items[1..], depth);
      ItemRefSplit(D, keys, items[0], depth, x);
      hide ItemRef, DirectItem, Via;
      ItemRefsSplit(D, keys, items[1..], depth, x);
      ViaAdds(D, keys, a, b, x);
    }
  }

  lemma {:induction false} ItemRefSplit(D: Disclosures, keys: seq<string>, item: Value, depth: nat, x: string)
    requires Enumerates(keys, D) && depth <= MAX_DEPTH && ItemShape(D, item, depth)
    ensures ItemRef(D, item, depth)[x] == DirectItem(item)[x] + Via(D, keys, ItemRef(D, item, depth), x)
    decreases 101 - depth, 2, 0
  {
    if IsPlaceholder(item) {
      FollowSplit(D, keys, item.members[DOTS], false, depth, x);
    } else {
      RefsSplit(D, keys, item, depth + 1, x);
    }
  }

  lemma {:induction false} NameRefsSplit(D: Disclosures, keys: seq<string>, v: Value, names: set<string>, depth: nat,
                                         x: string)
    requires Enumerates(keys, D) && depth <= MAX_DEPTH && v.Dict? && names <= v.members.Keys
    requires NameShapes(D, v.members, names, depth)
    ensures NameRefs(D, v.members, names, depth)[x]
         == DirectNames(v, names)[x] + Via(D, keys, NameRefs(D, v.members, names, depth), x)
    decreases 101 - depth, 2, |names|
  {
    if names == {} {
      ViaNone(D, keys, multiset{}, x);
    } else {
      var name :| name in names;
      var a, b := Refs(D, v.members[name], depth + 1), NameRefs(D, v.members, names - {name}, depth);
      NameRefsTake(D, v.members, names, name, depth);
      DirectNamesTake(v, names, name);
      RefsSplit(D, keys, v.members[name], depth + 1, x);
      NameRefsSplit(D, keys, v, names - {name}, depth, x);
      ViaAdds(D, keys, a, b, x);
    }
  }

  lemma {:induction false} DigestRefsSplit(D: Disclosures, keys: seq<string>, digests: seq<Value>, depth: nat, x: string)
    requires Enumerates(keys, D) && depth <= MAX_DEPTH
    requires forall i :: 0 <= i < |digests| ==> RefShape(D, digests[i], true, depth)
    ensures DigestRefs(D, digests, depth)[x]
         == DirectDigests(digests)[x] + Via(D, keys, DigestRefs(D, digests, depth), x)
    decreases 101 - depth, 2, |digests|
  {
    if digests == [] {
      ViaNone(D, keys, multiset{}, x);
    } else {
      FollowSplit(D, keys, digests[0], true, depth, x);
      DigestRefsSplit(D, keys, digests[1..], depth, x);
      ViaAdds(D, keys, Follow(D, digests[0], depth), DigestRefs(D, digests[1..], depth), x);
    }
  }

  lemma {:induction false} FollowSplit(D: Disclosures, keys: seq<string>, ref: Value, member: bool, depth: nat, x: string)
    requires Enumerates(keys, D) && depth <= MAX_DEPTH && RefShape(D, ref, member, depth)
    ensures Follow(D, ref, depth)[x] == RefOf(ref)[x] + Via(D, keys, Follow(D, ref, depth), x)
    decreases 101 - depth, 1
  {
    var d := ref.text;
    var one := multiset{d};
    if d in D {
      var inner := Refs(D, D[d].value, depth + 1);
      RefsSplit(D, keys, D[d].value, depth + 1, x);
      ViaAdds(D, keys, one, inner, x);
      ViaOne(D, keys, one, x, d);
      ThroughBasics(D, one, d, x);
    } else {
      assert Follow(D, ref, depth) == one + multiset{};
      assert one + multiset{} == one;
      ViaNone(D, keys, one, x);
    }
  }

  // ----- forests

  /** Each digest is written in at most one place, at most once. */
  ghost predicate Once(D: Disclosures, payload: Value) {
    && (forall x :: Direct(payload)[x] <= 1)
    && (forall d, x :: d in D ==> Direct(D[d].value)[x] <= 1)
    && (forall d, x :: d in D ==> Direct(payload)[x] == 0 || Direct(D[d].value)[x] == 0)
    && (forall d, e, x :: d in D && e in D && d != e ==> Direct(D[d].value)[x] == 0 || Direct(D[e].value)[x] == 0)
  }

  /** A chain of references that starts in `v` and goes through presented disclosures. */
  ghost predicate Chain(D: Disclosures, v: Value, path: seq<string>)
    decreases |path|
  {
    && path != [] && path[0] in Direct(v)
    && (|path| > 1 ==> path[0] in D && Chain(D, D[path[0]].value, path[1..]))
  }

  ghost predicate Reached(D: Disclosures, v: Value, x: string) {
    exists path :: Chain(D, v, path) && path[|path| - 1] == x
  }

  ghost predicate Forest(D: Disclosures, payload: Value) {
    Once(D, payload) && forall d :: d in D ==> Reached(D, payload, d)
  }

  lemma {:induction false} ChainWider(D: Disclosures, v: Value, w: Value, path: seq<string>)
    requires Chain(D, v, path) && (forall x :: x in Direct(v) ==> x in Direct(w))
    ensures Chain(D, w, path)
  {
  }

  lemma ReachedWider(D: Disclosures, v: Value, w: Value, x: string)
    requires Reached(D, v, x) && (forall y :: y in Direct(v) ==> y in Direct(w))
    ensures Reached(D, w, x)
  {
    var path :| Chain(D, v, path) && path[|path| - 1] == x;
    ChainWider(D, v, w, path);
  }

  lemma ReachedDirectly(D: Disclosures, v: Value, x: string)
    requires x in Direct(v)
    ensures Reached(D, v, x)
  {
    assert Chain(D, v, [x]);
  }

  lemma ReachedThrough(D: Disclosures, v: Value, d: string, x: string)
    requires d in Direct(v) && d in D && Reached(D, D[d].value, x)
    ensures Reached(D, v, x)
  {
    var path :| Chain(D, D[d].value, path) && path[|path| - 1] == x;
    assert ([d] + path)[1..] == path;
    assert Chain(D, v, [d] + path);
  }

  /** What the walk meets is reached. */
  lemma {:induction false} MetIsReached(D: Disclosures, v: Value, depth: nat, x: string)
    requires x in Refs(D, v, depth)
    ensures Reached(D, v, x)
    decreases 101 - depth, 3
  {
    match v
    case List(items) =>
      ItemMetIsReached(D, v, 0, depth, x);
    case Dict(members) =>
      if x in NameRefs(D, members, Names(members), depth) {
        NameMetIsReached(D, v, Names(members), depth, x);
      } else {
        DigestMetIsReached(D, v, 0, depth, x);
      }
  }

  lemma {:induction false} ItemMetIsReached(D: Disclosures, v: Value, k: nat, depth: nat, x: string)
    requires depth <= MAX_DEPTH && v.List? && k <= |v.items| && x in ItemRefs(D, v.items[k..], depth)
    requires forall y :: y in DirectItems(v.items[k..]) ==> y in Direct(v)
    ensures Reached(D, v, x)
    decreases 101 - depth, 2, |v.items| - k
  {
    var child := v.items[k];
    assert v.items[k..][1..] == v.items[k + 1..];
    assert DirectItems(v.items[k..]) == DirectItem(child) + DirectItems(v.items[k + 1..]);
    assert forall y :: y in DirectItem(child) ==> y in DirectItems(v.items[k..]);
    if x in ItemRef(D, child, depth) {
      if IsPlaceholder(child) {
        FollowMetIsReached(D, v, child.members[DOTS], depth, x);
      } else {
        MetIsReached(D, child, depth + 1, x);
        ReachedWider(D, child, v, x);
      }
    } else {
      ItemMetIsReached(D, v, k + 1, depth, x);
    }
  }

  lemma {:induction false} NameMetIsReached(D: Disclosures, v: Value, names: set<string>, depth: nat, x: string)
    requires depth <= MAX_DEPTH && v.Dict? && names <= Names(v.members)
    requires x in NameRefs(D, v.members, names, depth)
    ensures Reached(D, v, x)
    decreases 101 - depth, 2, |names|
  {
    var name :| name in names
      && NameRefs(D, v.members, names, depth)
      == Refs(D, v.members[name], depth + 1) + NameRefs(D, v.members, names - {name}, depth);
    if x in Refs(D, v.members[name], depth + 1) {
      DirectNamesTake(v, Names(v.members), name);
      MetIsReached(D, v.members[name], depth + 1, x);
      ReachedWider(D, v.members[name], v, x);
    } else {
      NameMetIsReached(D, v, names - {name}, depth, x);
    }
  }

  lemma {:induction false} DigestMetIsReached(D: Disclosures, v: Value, k: nat, depth: nat, x: string)
    requires depth <= MAX_DEPTH && v.Dict? && k <= |Digests(v.members)|
    requires x in DigestRefs(D, Digests(v.members)[k..], depth)
    requires forall y :: y in DirectDigests(Digests(v.members)[k..]) ==> y in Direct(v)
    ensures Reached(D, v, x)
    decreases 101 - depth, 2, |Digests(v.members)| - k
  {
    var digests := Digests(v.members);
    assert digests[k..][1..] == digests[k + 1..];
    if x in Follow(D, digests[k], depth) {
      FollowMetIsReached(D, v, digests[k], depth, x);
    } else {
      DigestMetIsReached(D, v, k + 1, depth, x);
    }
  }

  lemma {:induction false} FollowMetIsReached(D: Disclosures, v: Value, ref: Value, depth: nat, x: string)
    requires depth <= MAX_DEPTH && x in Follow(D, ref, depth)
    requires forall y :: y in RefOf(ref) ==> y in Direct(v)
    ensures Reached(D, v, x)
    decreases 101 - depth, 1
  {
    var d := ref.text;
    assert d in RefOf(ref);
    if x == d {
      ReachedDirectly(D, v, x);
    } else {
      MetIsReached(D, D[d].value, depth + 1, x);
      ReachedThrough(D, v, d, x);
    }
  }

  /** Along a chain from the payload of a forest, each digest is met exactly once. */
  lemma {:induction false} ChainIsMetOnce(D: Disclosures, keys: seq<string>, payload: Value, path: seq<string>, i: nat)
    requires Enumerates(keys, D) && Shape(D, payload, 0) && Once(D, payload)
    requires Chain(D, payload, path) && i < |path|
    ensures Refs(D, payload, 0)[path[i]] == 1
    decreases i
  {
    if i == 0 {
      WrittenInPayload(D, keys, payload, path[0]);
    } else {
      ChainIsMetOnce(D, keys, payload, path, i - 1);
      ChainLink(D, payload, path, i);
      WrittenInDisclosure(D, keys, payload, path[i - 1], path[i]);
    }
  }

  lemma {:induction false} ChainLink(D: Disclosures, v: Value, path: seq<string>, i: nat)
    requires Chain(D, v, path) && 0 < i < |path|
    ensures path[i - 1] in D && path[i] in Direct(D[path[i - 1]].value)
    decreases i
  {
    if i > 1 { ChainLink(D, D[path[0]].value, path[1..], i - 1); }
  }

  lemma WrittenInPayload(D: Disclosures, keys: seq<string>, payload: Value, x: string)
    requires Enumerates(keys, D) && Shape(D, payload, 0) && Once(D, payload) && x in Direct(payload)
    ensures Refs(D, payload, 0)[x] == 1
  {
    RefsSplit(D, keys, payload, 0, x);
    ViaNone(D, keys, Refs(D, payload, 0), x);
  }

  lemma WrittenInDisclosure(D: Disclosures, keys: seq<string>, payload: Value, p: string, x: string)
    requires Enumerates(keys, D) && Shape(D, payload, 0) && Once(D, payload)
    requires p in D && x in Direct(D[p].value)
    ensures Refs(D, payload, 0)[x] == Refs(D, payload, 0)[p]
  {
    RefsSplit(D, keys, payload, 0, x);
    ViaOne(D, keys, Refs(D, payload, 0), x, p);
    assert Direct(D[p].value)[x] == 1;
    ThroughBasics(D, Refs(D, payload, 0), p, x);
  }

  lemma WrittenNowhere(D: Disclosures, keys: seq<string>, payload: Value, x: string)
    requires Enumerates(keys, D) && Shape(D, payload, 0) && x !in Direct(payload)
    requires forall d :: d in D ==> x !in Direct(D[d].value)
    ensures Refs(D, payload, 0)[x] == 0
  {
    RefsSplit(D, keys, payload, 0, x);
    ViaNone(D, keys, Refs(D, payload, 0), x);
  }

  lemma ForestIsAccepted(D: Disclosures, payload: Value)
    requires Shape(D, payload, 0) && Forest(D, payload)
    ensures Accepts(D, payload)
  {
    var keys := KeysOf(D, D.Keys);
    forall d | d in D ensures Refs(D, payload, 0)[d] == 1 {
      var path :| Chain(D, payload, path) && path[|path| - 1] == d;
      ChainIsMetOnce(D, keys, payload, path, |path| - 1);
    }
    forall x ensures Refs(D, payload, 0)[x] <= 1 {
      if x in Direct(payload) {
        WrittenInPayload(D, keys, payload, x);
      } else if p :| p in D && x in Direct(D[p].value) {
        WrittenInDisclosure(D, keys, payload, p, x);
      } else {
        WrittenNowhere(D, keys, payload, x);
      }
    }
  }

  lemma AcceptedIsForest(D: Disclosures, payload: Value)
    requires Accepts(D, payload)
    ensures Forest(D, payload)
  {
    AcceptedIsOnce(D, payload);
    hide Once, Reached, Shape, Refs, Fits;
    forall d | d in D ensures Reached(D, payload, d) {
      MetIsReached(D, payload, 0, d);
    }
  }

  lemma AcceptedIsOnce(D: Disclosures, payload: Value)
    requires Accepts(D, payload)
    ensures Once(D, payload)
  {
    var keys := KeysOf(D, D.Keys);
    assert Enumerates(keys, D);
    forall x ensures Direct(payload)[x] <= 1 {
      RefsSplit(D, keys, payload, 0, x);
      assert Refs(D, payload, 0)[x] <= 1;
    }
    hide Accepts, Direct, Enumerates;
    forall d, x | d in D ensures Direct(D[d].value)[x] <= 1 {
      AtMostOnce(D, keys, payload, d, x);
    }
    forall d, x | d in D ensures Direct(payload)[x] == 0 || Direct(D[d].value)[x] == 0 {
      AtMostOnce(D, keys, payload, d, x);
    }
    forall d, e, x | d in D && e in D && d != e
      ensures Direct(D[d].value)[x] == 0 || Direct(D[e].value)[x] == 0
    {
      NotTwice(D, keys, payload, d, e, x);
    }
  }

  lemma AtMostOnce(D: Disclosures, keys: seq<string>, payload: Value, d: string, x: string)
    requires Accepts(D, payload) && Enumerates(keys, D) && d in D
    ensures Direct(payload)[x] + Direct(D[d].value)[x] <= 1
  {
    var refs := Refs(D, payload, 0);
    RefsSplit(D, keys, payload, 0, x);
    ViaSome(D, keys, refs, x, d);
    assert refs[d] == 1;
    ThroughBasics(D, refs, d, x);
  }

  lemma NotTwice(D: Disclosures, keys: seq<string>, payload: Value, d: string, e: string, x: string)
    requires Accepts(D, payload) && Enumerates(keys, D) && d in D && e in D && d != e
    ensures Direct(D[d].value)[x] + Direct(D[e].value)[x] <= 1
  {
    var refs := Refs(D, payload, 0);
    RefsSplit(D, keys, payload, 0, x);
    ViaTwo(D, keys, refs, x, d, e);
    assert refs[d] == 1 && refs[e] == 1;
    ThroughBasics(D, refs, d, x);
    ThroughBasics(D, refs, e, x);
  }

  /** The walk accepts exactly the well-shaped forests: each digest written once, every presented
      disclosure reached from the payload. */
  lemma AcceptedExactlyForests(D: Disclosures, payload: Value)
    ensures Accepts(D, payload) <==> Shape(D, payload, 0) && Forest(D, payload)
  {
    if Accepts(D, payload) { AcceptedIsForest(D, payload); }
    if Shape(D, payload, 0) && Forest(D, payload) { ForestIsAccepted(D, payload); }
  }
}
