/**
 * The strict walk the default serializer takes before encoding: a value is
 * refused where JSON would lose something without a word, and where it would
 * never end. Values form a finite graph; what an object's `toJSON` returns is
 * taken to be the same each time, and is an edge of it.
 */
module Serializer {
  import opened Basics

  type Id = nat

  datatype Node =
    | Plain                                        // a string, a finite number, a boolean, null
    | Lossy                                        // what JSON cannot represent, or would flatten
    | Date(valid: bool)
    | Composite(kids: seq<Id>, toJSON: Option<Id>)

  type Graph = map<Id, Node>

  ghost predicate Closed(g: Graph) {
    forall v :: v in g && g[v].Composite? ==>
      && (forall i :: 0 <= i < |g[v].kids| ==> g[v].kids[i] in g)
      && (g[v].toJSON.Some? ==> g[v].toJSON.value in g)
  }

  predicate Converts(g: Graph, v: Id)
    requires v in g
  {
    g[v].Composite? && g[v].toJSON.Some?
  }

  // ---------------------------------------------------- as JSON would read it

  /**
   * The tree JSON writes for a value is complete within `n` levels and holds
   * nothing lossy. `written` says that the value is what a `toJSON` returned,
   * which is written by its own keys.
   */
  ghost predicate Reads(g: Graph, v: Id, written: bool, n: nat)
    requires Closed(g) && v in g
    decreases n
  {
    n > 0 &&
    match g[v]
    case Plain => true
    case Lossy => false
    case Date(valid) => valid && !written
    case Composite(kids, toJSON) =>
      if toJSON.Some? && !written then Reads(g, toJSON.value, true, n - 1)
      else forall i :: 0 <= i < |kids| ==> Reads(g, kids[i], false, n - 1)
  }

  lemma {:induction false} ReadsDeeper(g: Graph, v: Id, written: bool, n: nat, m: nat)
    requires Closed(g) && v in g && n <= m && Reads(g, v, written, n)
    ensures Reads(g, v, written, m)
    decreases n
  {
    match g[v]
    case Composite(kids, toJSON) =>
      if toJSON.Some? && !written {
        ReadsDeeper(g, toJSON.value, true, n - 1, m - 1);
      } else {
        forall i | 0 <= i < |kids| ensures Reads(g, kids[i], false, m - 1) { ReadsDeeper(g, kids[i], false, n - 1, m - 1); }
      }
    case _ =>
  }

  /** The depth of the tree. */
  lemma {:induction false} Depth(g: Graph, v: Id, written: bool, n: nat) returns (d: nat)
    requires Closed(g) && v in g && Reads(g, v, written, n)
    ensures 0 < d <= n && Reads(g, v, written, d) && !Reads(g, v, written, d - 1)
    decreases n
  {
    if Reads(g, v, written, n - 1) { d := Depth(g, v, written, n - 1); } else { d := n; }
  }

  // --------------------------------------------------------------- the walk

  /** What `walk` says of a value, with `seen` on the path to it and `source` the object whose `toJSON` returned it. */
  ghost predicate Walks(g: Graph, v: Id, seen: set<Id>, source: Option<Id>)
    requires Closed(g) && v in g && seen <= g.Keys && (source.Some? ==> source.value in seen)
    decreases |g.Keys - seen|, if source.Some? then 2 else 0, 0
  {
    match g[v]
    case Plain => true
    case Lossy => false
    case Date(valid) => source.None? && valid
    case Composite(kids, toJSON) =>
      if source.None? && toJSON.Some? then
        v !in seen && (Smaller(g.Keys, seen, v); Walks(g, toJSON.value, seen + {v}, Some(v)))
      else
        (v !in seen || source == Some(v)) && (Smaller(g.Keys, seen, v); WalksAll(g, kids, seen + {v}))
  }

  ghost predicate WalksAll(g: Graph, kids: seq<Id>, seen: set<Id>)
    requires Closed(g) && seen <= g.Keys && forall i :: 0 <= i < |kids| ==> kids[i] in g
    decreases |g.Keys - seen|, 1, |kids|
  {
    kids == [] || (Walks(g, kids[0], seen, None) && WalksAll(g, kids[1..], seen))
  }

  lemma Smaller(keys: set<Id>, seen: set<Id>, v: Id)
    requires v in keys
    ensures v !in seen ==> |keys - (seen + {v})| < |keys - seen|
    ensures v in seen ==> seen + {v} == seen
  {
    assert keys - (seen + {v}) == (keys - seen) - {v};
    if v in seen { assert seen + {v} == seen; }
  }

  /** The walk with the set of objects on the path updated as it goes: on success it is what it was. */
  method Walk(g: Graph, v: Id, seen: set<Id>, source: Option<Id>) returns (ok: bool, after: set<Id>)
    requires Closed(g) && v in g && seen <= g.Keys && (source.Some? ==> source.value in seen)
    ensures ok == Walks(g, v, seen, source)
    ensures ok ==> after == (if source == Some(v) && g[v].Composite? then seen - {v} else seen)
    decreases |g.Keys - seen|, if source.Some? then 2 else 0, 0
  {
    after := seen;
    match g[v]
    case Plain => ok := true;
    case Lossy => ok := false;
    case Date(valid) => ok := source.None? && valid;
    case Composite(kids, toJSON) =>
      Smaller(g.Keys, seen, v);
      if source.None? && toJSON.Some? {
        if v in seen { return false, after; }
        ok, after := Walk(g, toJSON.value, seen + {v}, Some(v));
        after := after - {v};
        return;
      }
      if v in seen && source != Some(v) { return false, after; }
      after := after + {v};
      ok := true;
      var i := 0;
      while i < |kids|
        invariant 0 <= i <= |kids| && ok && after == seen + {v}
        invariant WalksAll(g, kids, seen + {v}) == WalksAll(g, kids[i..], seen + {v})
      {
        ok, after := Walk(g, kids[i], after, None);
        if !ok { return; }
        assert kids[i..][1..] == kids[i + 1..];
        i := i + 1;
      }
      after := after - {v};
  }

  // ------------------------------------------------ when the two say the same

  /**
   * Nowhere within `n` levels of the tree is an object converted below where
   * it was written on another's behalf, nor the other way around.
   */
  ghost predicate Apart(g: Graph, v: Id, source: Option<Id>, converted: set<Id>, written: set<Id>, n: nat)
    requires Closed(g) && v in g
    decreases n
  {
    n > 0 && g[v].Composite? ==>
      if source.None? && g[v].toJSON.Some? then
        v !in written && Apart(g, g[v].toJSON.value, Some(v), converted + {v}, written, n - 1)
      else
        && (v in converted ==> source == Some(v))
        && forall i :: 0 <= i < |g[v].kids| ==> Apart(g, g[v].kids[i], None, converted, written + {v}, n - 1)
  }

  /** Below the depth of the tree there is nothing left to look at. */
  lemma {:induction false} ApartDeeper(g: Graph, v: Id, source: Option<Id>, converted: set<Id>, written: set<Id>, n: nat, m: nat)
    requires Closed(g) && v in g && n <= m
    requires Reads(g, v, source.Some?, n) && Apart(g, v, source, converted, written, n)
    ensures Apart(g, v, source, converted, written, m)
    decreases n
  {
    if g[v].Composite? {
      if source.None? && g[v].toJSON.Some? {
        ApartDeeper(g, g[v].toJSON.value, Some(v), converted + {v}, written, n - 1, m - 1);
      } else {
        forall i | 0 <= i < |g[v].kids| ensures Apart(g, g[v].kids[i], None, converted, written + {v}, m - 1) {
          ApartDeeper(g, g[v].kids[i], None, converted, written + {v}, n - 1, m - 1);
        }
      }
    }
  }

  ghost predicate Both(g: Graph, v: Id, source: Option<Id>, converted: set<Id>, written: set<Id>, n: nat)
    requires Closed(g) && v in g
  {
    Reads(g, v, source.Some?, n) && Apart(g, v, source, converted, written, n)
  }

  /** What the walk accepts, JSON writes to the end. */
  lemma {:induction false} AcceptedReads(g: Graph, v: Id, source: Option<Id>, converted: set<Id>, written: set<Id>) returns (n: nat)
    requires Closed(g) && v in g && converted + written <= g.Keys && (source.Some? ==> source.value in converted)
    requires Walks(g, v, converted + written, source)
    ensures Both(g, v, source, converted, written, n)
    decreases |g.Keys - (converted + written)|, if source.Some? then 2 else 0, 0
  {
    var seen := converted + written;
    Smaller(g.Keys, seen, v);
    n := 1;
    match g[v]
    case Composite(kids, toJSON) =>
      if source.None? && toJSON.Some? {
        assert seen + {v} == (converted + {v}) + written;
        var d := AcceptedReads(g, toJSON.value, Some(v), converted + {v}, written);
        n := d + 1;
      } else {
        assert seen + {v} == converted + (written + {v});
        var d := AcceptedAllRead(g, kids, converted, written + {v});
        n := d + 1;
      }
    case _ =>
  }

  lemma {:induction false} AcceptedAllRead(g: Graph, kids: seq<Id>, converted: set<Id>, written: set<Id>) returns (n: nat)
    requires Closed(g) && converted + written <= g.Keys && forall i :: 0 <= i < |kids| ==> kids[i] in g
    requires WalksAll(g, kids, converted + written)
    ensures forall i :: 0 <= i < |kids| ==> Both(g, kids[i], None, converted, written, n)
    decreases |g.Keys - (converted + written)|, 1, |kids|
  {
    n := 0;
    if kids != [] {
      var first := AcceptedReads(g, kids[0], None, converted, written);
      var rest := AcceptedAllRead(g, kids[1..], converted, written);
      n := if first < rest then rest else first;
      forall i | 0 <= i < |kids| ensures Both(g, kids[i], None, converted, written, n) {
        var m := if i == 0 then first else rest;
        assert i > 0 ==> kids[i] == kids[1..][i - 1];
        ReadsDeeper(g, kids[i], false, m, n);
        ApartDeeper(g, kids[i], None, converted, written, m, n);
      }
    }
  }

  /** Everything on the path has a deeper tree than what is below it. */
  ghost predicate Above(g: Graph, converted: set<Id>, written: set<Id>, n: nat)
    requires Closed(g) && converted + written <= g.Keys
  {
    && (forall w :: w in converted ==> !Reads(g, w, false, n))
    && (forall w :: w in written ==> !Reads(g, w, true, n))
  }

  lemma AboveLower(g: Graph, converted: set<Id>, written: set<Id>, n: nat, m: nat)
    requires Closed(g) && converted + written <= g.Keys && Above(g, converted, written, n) && m <= n
    ensures Above(g, converted, written, m)
  {
    forall w | w in converted ensures !Reads(g, w, false, m) { if Reads(g, w, false, m) { ReadsDeeper(g, w, false, m, n); } }
    forall w | w in written ensures !Reads(g, w, true, m) { if Reads(g, w, true, m) { ReadsDeeper(g, w, true, m, n); } }
  }

  lemma {:induction false} ApartShallower(g: Graph, v: Id, source: Option<Id>, converted: set<Id>, written: set<Id>, n: nat, m: nat)
    requires Closed(g) && v in g && m <= n && Apart(g, v, source, converted, written, n)
    ensures Apart(g, v, source, converted, written, m)
    decreases n
  {
    if m > 0 && g[v].Composite? {
      if source.None? && g[v].toJSON.Some? {
        ApartShallower(g, g[v].toJSON.value, Some(v), converted + {v}, written, n - 1, m - 1);
      } else {
        forall i | 0 <= i < |g[v].kids| ensures Apart(g, g[v].kids[i], None, converted, written + {v}, m - 1) {
          ApartShallower(g, g[v].kids[i], None, converted, written + {v}, n - 1, m - 1);
        }
      }
    }
  }

  /** What JSON writes to the end the walk accepts, where the two roles stay apart. */
  lemma {:induction false} ReadsAccepted(g: Graph, v: Id, source: Option<Id>, converted: set<Id>, written: set<Id>, n: nat)
    requires Closed(g) && v in g && converted + written <= g.Keys && (source.Some? ==> source.value in converted)
    requires Both(g, v, source, converted, written, n) && Above(g, converted, written, n)
    ensures Walks(g, v, converted + written, source)
    decreases n, 3, 0
  {
    var d := Depth(g, v, source.Some?, n);
    ApartShallower(g, v, source, converted, written, n, d);
    AboveLower(g, converted, written, n, d);
    if g[v].Composite? {
      if source.None? && g[v].toJSON.Some? {
        ConvertedAccepted(g, v, converted, written, d);
      } else {
        WrittenAccepted(g, v, source, converted, written, d);
      }
    }
  }

  lemma {:induction false} ConvertedAccepted(g: Graph, v: Id, converted: set<Id>, written: set<Id>, d: nat)
    requires Closed(g) && v in g && converted + written <= g.Keys && g[v].Composite? && g[v].toJSON.Some?
    requires Both(g, v, None, converted, written, d) && Above(g, converted, written, d) && !Reads(g, v, false, d - 1)
    ensures Walks(g, v, converted + written, None)
    decreases d, 2, 0
  {
    AboveLower(g, converted, written, d, d - 1);
    Smaller(g.Keys, converted + written, v);
    assert converted + written + {v} == (converted + {v}) + written;
    ReadsAccepted(g, g[v].toJSON.value, Some(v), converted + {v}, written, d - 1);
  }

  lemma {:induction false} WrittenAccepted(g: Graph, v: Id, source: Option<Id>, converted: set<Id>, written: set<Id>, d: nat)
    requires Closed(g) && v in g && converted + written <= g.Keys && (source.Some? ==> source.value in converted)
    requires g[v].Composite? && (source.Some? || g[v].toJSON.None?)
    requires Both(g, v, source, converted, written, d) && Above(g, converted, written, d) && !Reads(g, v, source.Some?, d - 1)
    ensures Walks(g, v, converted + written, source)
    decreases d, 2, 0
  {
    AboveLower(g, converted, written, d, d - 1);
    AllReadAccepted(g, g[v].kids, converted, written + {v}, d - 1);
    WrittenWalks(g, v, source, converted, written);
  }

  lemma WrittenWalks(g: Graph, v: Id, source: Option<Id>, converted: set<Id>, written: set<Id>)
    requires Closed(g) && v in g && converted + written <= g.Keys && (source.Some? ==> source.value in converted)
    requires g[v].Composite? && (source.Some? || g[v].toJSON.None?)
    requires v !in written && (v in converted ==> source == Some(v))
    requires WalksAll(g, g[v].kids, converted + (written + {v}))
    ensures Walks(g, v, converted + written, source)
  {
    Smaller(g.Keys, converted + written, v);
    assert converted + written + {v} == converted + (written + {v});
  }

  lemma {:induction false} AllReadAccepted(g: Graph, kids: seq<Id>, converted: set<Id>, written: set<Id>, n: nat)
    requires Closed(g) && converted + written <= g.Keys && forall i :: 0 <= i < |kids| ==> kids[i] in g
    requires forall i :: 0 <= i < |kids| ==> Both(g, kids[i], None, converted, written, n)
    requires Above(g, converted, written, n)
    ensures WalksAll(g, kids, converted + written)
    decreases n, 4, |kids|
  {
    if kids != [] {
      ReadsAccepted(g, kids[0], None, converted, written, n);
      forall i | 0 <= i < |kids[1..]| ensures Both(g, kids[1..][i], None, converted, written, n) { assert kids[1..][i] == kids[i + 1]; }
      AllReadAccepted(g, kids[1..], converted, written, n);
    }
  }

  /**
   * The walk accepts a value exactly when the tree JSON writes for it ends
   * and holds nothing lossy, and nowhere on the way down an object is met
   * both converted by its own `toJSON` and written on another's behalf.
   */
  lemma AcceptsExactly(g: Graph, v: Id)
    requires Closed(g) && v in g
    ensures Walks(g, v, {}, None) <==> exists n :: Both(g, v, None, {}, {}, n)
  {
    var none: set<Id> := {};
    assert none + none == none;
    if Walks(g, v, {}, None) { var n := AcceptedReads(g, v, None, {}, {}); }
    if n :| Both(g, v, None, {}, {}, n) { ReadsAccepted(g, v, None, {}, {}, n); }
  }

  // ----------------------------------------------------- what a caller checks

  /** No `toJSON` returns another object that has one. */
  ghost predicate Simple(g: Graph)
    requires Closed(g)
  {
    forall u, v :: u in g && v in g && u != v && Converts(g, u) && g[u].toJSON == Some(v) ==> !Converts(g, v)
  }

  /** The roles an object can have then: converted only if it converts, written only if it does not, or by itself. */
  ghost predicate Roles(g: Graph, converted: set<Id>, written: set<Id>)
    requires Closed(g) && converted + written <= g.Keys
  {
    && (forall w :: w in converted ==> Converts(g, w))
    && (forall w :: w in written ==> !Converts(g, w) || w in converted)
  }

  lemma {:induction false} SimpleApart(g: Graph, v: Id, source: Option<Id>, converted: set<Id>, written: set<Id>, n: nat)
    requires Closed(g) && Simple(g) && v in g && converted + written <= g.Keys && Roles(g, converted, written)
    requires source.Some? ==> source.value in converted && g[source.value].toJSON == Some(v)
    requires Reads(g, v, source.Some?, n) && Above(g, converted, written, n)
    ensures Apart(g, v, source, converted, written, n)
    decreases n
  {
    var d := Depth(g, v, source.Some?, n);
    AboveLower(g, converted, written, n, d);
    AboveLower(g, converted, written, n, d - 1);
    if g[v].Composite? {
      if source.None? && g[v].toJSON.Some? {
        SimpleApart(g, g[v].toJSON.value, Some(v), converted + {v}, written, d - 1);
      } else {
        assert v in converted ==> source == Some(v);
        forall i | 0 <= i < |g[v].kids| ensures Apart(g, g[v].kids[i], None, converted, written + {v}, d - 1) {
          SimpleApart(g, g[v].kids[i], None, converted, written + {v}, d - 1);
        }
      }
    }
    ApartDeeper(g, v, source, converted, written, d, n);
  }

  /** Where no `toJSON` returns another object that has one, the walk refuses exactly what JSON cannot write, or would lose something of. */
  lemma AcceptsWhatJsonWrites(g: Graph, v: Id)
    requires Closed(g) && Simple(g) && v in g
    ensures Walks(g, v, {}, None) <==> exists n :: Reads(g, v, false, n)
  {
    AcceptsExactly(g, v);
    if n :| Reads(g, v, false, n) {
      SimpleApart(g, v, None, {}, {}, n);
      assert Both(g, v, None, {}, {}, n);
    }
    if n :| Both(g, v, None, {}, {}, n) { assert Reads(g, v, false, n); }
  }

  /** An object whose `toJSON` returns another, which refers to itself and has a `toJSON` of its own that returns a string. */
  predicate SelfReferring(g: Graph) {
    g.Keys == {0, 1, 2} && g[0] == Composite([], Some(1)) && g[1] == Composite([1], Some(2)) && g[2] == Plain
  }

  lemma JsonWritesIt(g: Graph)
    requires SelfReferring(g)
    ensures Closed(g) && Reads(g, 0, false, 4)
  {
    assert Reads(g, 2, true, 1);
    assert Reads(g, 1, false, 2);
    assert Reads(g, 1, true, 3);
  }

  lemma WalkRefusesIt(g: Graph)
    requires SelfReferring(g) && Closed(g)
    ensures !Walks(g, 0, {}, None)
  {
    assert {} + {0} == {0};
    WalkRefusesBelow(g);
  }

  lemma WalkRefusesBelow(g: Graph)
    requires SelfReferring(g) && Closed(g)
    ensures !Walks(g, 1, {0}, Some(0))
  {
    var path := {0} + {1};
    Smaller(g.Keys, {0}, 1);
    assert !Walks(g, 1, path, None);
    assert !WalksAll(g, [1], path);
  }

  /** Where some `toJSON` does return such an object, the walk can refuse what JSON writes. */
  lemma RefusesWhatJsonWrites(g: Graph)
    requires SelfReferring(g)
    ensures Closed(g) && !Simple(g) && Reads(g, 0, false, 4) && !Walks(g, 0, {}, None)
  {
    JsonWritesIt(g);
    WalkRefusesIt(g);
    assert Converts(g, 0) && Converts(g, 1) && g[0].toJSON == Some(1);
  }
}
