/**
 * The topics a consumer consumes: each subscription's plan (its retry ladder
 * and DLQ) and the table of routes that subscriptions are accepted into.
 */
module Routes {
  import opened Basics
  import opened Lanes

  datatype Plan = Plan(original: string, retryTopics: seq<string>, dlq: Option<string>)
  {
    /** The retry topic of a 1-based level, as the array lookup answers it. */
    function RetryTopic(level: nat): Option<string> {
      if 1 <= level <= |retryTopics| then Some(retryTopics[level - 1]) else None
    }

    /** The topic of a level: the original at 0, the retry topics from 1 on. */
    function At(level: nat): string
      requires level <= |retryTopics|
    {
      if level == 0 then original else retryTopics[level - 1]
    }

    predicate Consumes(topic: string) { topic == original || topic in retryTopics }
  }

  datatype Subscription = Subscription(plan: Plan, kind: Kind)

  datatype Route = Route(owners: map<string, Subscription>, level: nat, delay: nat)

  type Table = map<string, Route>

  datatype Refusal = DuplicateName | DlqInLadder | Claimed | WrongLevel | SharedByBatch | DlqConsumed | ConsumesDlq

  /** No topic of the ladder repeats another, and the DLQ is none of them. */
  ghost predicate Distinct(p: Plan) {
    && p.original !in p.retryTopics
    && (forall i, j :: 0 <= i < j < |p.retryTopics| ==> p.retryTopics[i] != p.retryTopics[j])
    && (p.dlq.Some? ==> !p.Consumes(p.dlq.value))
  }

  /** The topic of level `i` as it is named. */
  function Named(original: string, i: nat, retryNaming: (string, nat) -> string): string {
    if i == 0 then original else retryNaming(original, i)
  }

  /** The topic map of one subscription, or why its naming is refused. */
  method MakePlan(original: string, levels: nat, retryNaming: (string, nat) -> string, dlqNaming: Option<string -> string>)
    returns (plan: Plan, refusal: Option<Refusal>)
    ensures plan.original == original
    ensures refusal.None? <==>
              Distinct(Plan(original, seq(levels, i requires 0 <= i < levels => retryNaming(original, i + 1)),
                            if dlqNaming.Some? then Some(dlqNaming.value(original)) else None))
    ensures match refusal
            case None => true
            case Some(DuplicateName) =>
              exists i, j :: 0 <= i < j <= levels && Named(original, i, retryNaming) == Named(original, j, retryNaming)
            case Some(DlqInLadder) =>
              dlqNaming.Some? && exists i :: 0 <= i <= levels && dlqNaming.value(original) == Named(original, i, retryNaming)
            case Some(_) => false
    ensures refusal.None? ==>
              && plan.retryTopics == seq(levels, i requires 0 <= i < levels => retryNaming(original, i + 1))
              && plan.dlq == if dlqNaming.Some? then Some(dlqNaming.value(original)) else None
  {
    plan := Plan(original, [], None);
    ghost var names := seq(levels, i requires 0 <= i < levels => retryNaming(original, i + 1));
    var retryTopics: seq<string> := [];
    var taken := {original};
    assert Named(original, 0, retryNaming) == original;
    for level := 1 to levels + 1
      invariant retryTopics == names[..level - 1]
      invariant taken == {original} + set t | t in retryTopics
      invariant forall t :: t in taken ==> exists i :: 0 <= i < level && Named(original, i, retryNaming) == t
      invariant original !in retryTopics
      invariant forall i, j :: 0 <= i < j < level - 1 ==> names[i] != names[j]
    {
      var topic := retryNaming(original, level);
      assert topic == names[level - 1] == Named(original, level, retryNaming);
      if topic in taken {
        return plan, Some(DuplicateName);
      }
      taken := taken + {topic};
      retryTopics := retryTopics + [topic];
    }
    assert retryTopics == names;
    plan := Plan(original, retryTopics, None);
    if dlqNaming.None? { return plan, None; }
    var dlqTopic := dlqNaming.value(original);
    if dlqTopic in taken { return plan, Some(DlqInLadder); }
    plan := Plan(original, retryTopics, Some(dlqTopic));
    refusal := None;
  }

  // ------------------------------------------------------- the table itself

  /** One route as the table promises it. */
  ghost predicate RouteOk(r: Table, delays: seq<nat>, topic: string)
    requires topic in r
  {
    var route := r[topic];
    && route.level <= |delays|
    && route.delay == (if route.level == 0 then 0 else delays[route.level - 1])
    && route.owners != map[]
    && (route.level == 0 ==> route.owners.Keys == {topic})
    && (forall o :: o in route.owners ==> OwnerOk(r, delays, topic, o))
    && BatchAlone(route)
  }

  /** A batch subscription shares no route. */
  ghost predicate BatchAlone(route: Route) {
    forall o, p :: o in route.owners && p in route.owners && route.owners[o].kind.Batch? ==> o == p
  }

  /** An owner of a route: the route is its own step of the ladder, and it owns the whole ladder. */
  ghost predicate OwnerOk(r: Table, delays: seq<nat>, topic: string, o: string)
    requires topic in r && o in r[topic].owners && r[topic].level <= |delays|
  {
    var s := r[topic].owners[o];
    && s.plan.original == o && |s.plan.retryTopics| == |delays| && Distinct(s.plan)
    && s.plan.At(r[topic].level) == topic
    && (forall i :: 0 <= i <= |delays| ==> Owns(r, s, i))
    && (s.plan.dlq.Some? ==> s.plan.dlq.value !in r)
  }

  /** Step `i` of the ladder of `s` is routed at level `i` and owned by `s`. */
  ghost predicate Owns(r: Table, s: Subscription, i: nat)
    requires i <= |s.plan.retryTopics|
  {
    var t := s.plan.At(i);
    t in r && r[t].level == i && s.plan.original in r[t].owners && r[t].owners[s.plan.original] == s
  }

  ghost predicate TableOk(r: Table, delays: seq<nat>) {
    forall t :: t in r ==> RouteOk(r, delays, t)
  }

  /** A message that a subscription fails on one level lands on a route one level further down that it owns as well. */
  lemma NextRoute(r: Table, delays: seq<nat>, topic: string, o: string)
    requires TableOk(r, delays) && topic in r && o in r[topic].owners
    ensures match r[topic].owners[o].plan.RetryTopic(r[topic].level + 1)
            case None => r[topic].level == |delays|
            case Some(next) => next in r && r[next].level == r[topic].level + 1 && o in r[next].owners && r[next].owners[o] == r[topic].owners[o]
    ensures r[topic].owners[o].plan.dlq.Some? ==> r[topic].owners[o].plan.dlq.value !in r
  {
    assert RouteOk(r, delays, topic) && OwnerOk(r, delays, topic, o);
    var s, level := r[topic].owners[o], r[topic].level;
    if level < |delays| {
      assert Owns(r, s, level + 1);
    }
  }

  // -------------------------------------------------------- subscribing

  /** The retry topic of level `i + 1` is free, or already routed at that level for subscriptions that may share it. */
  predicate LevelFree(r: Table, s: Subscription, i: nat)
    requires i < |s.plan.retryTopics|
  {
    var t := s.plan.retryTopics[i];
    t in r ==>
      && r[t].level == i + 1
      && s.kind.Each?
      && forall o :: o in r[t].owners ==> r[t].owners[o].kind.Each?
  }

  /** No topic of the new ladder is the DLQ of a subscription already accepted. */
  ghost predicate DlqsClear(r: Table, s: Subscription) {
    forall t, o :: t in r && o in r[t].owners && r[t].owners[o].plan.dlq.Some? ==>
      !s.plan.Consumes(r[t].owners[o].plan.dlq.value)
  }

  ghost predicate Acceptable(r: Table, s: Subscription) {
    && s.plan.original !in r
    && (forall i :: 0 <= i < |s.plan.retryTopics| ==> LevelFree(r, s, i))
    && (s.plan.dlq.Some? ==> s.plan.dlq.value !in r)
    && DlqsClear(r, s)
  }

  /** The table with the original topic and the first `n` levels of `s` added. */
  function Registered(r: Table, delays: seq<nat>, s: Subscription, n: nat): Table
    requires n <= |delays| == |s.plan.retryTopics|
  {
    if n == 0 then r[s.plan.original := Route(map[s.plan.original := s], 0, 0)]
    else
      var before := Registered(r, delays, s, n - 1);
      var t := s.plan.retryTopics[n - 1];
      var route := if t in before then before[t] else Route(map[], n, delays[n - 1]);
      before[t := route.(owners := route.owners[s.plan.original := s])]
  }

  /** What registering the first `n` levels changes, topic by topic. */
  ghost predicate Registers(r: Table, delays: seq<nat>, s: Subscription, n: nat, q: Table)
    requires n <= |delays| == |s.plan.retryTopics|
  {
    && (forall t :: t in r ==> t in q)
    && (forall t :: t in q && !(t == s.plan.original || t in s.plan.retryTopics[..n]) ==> t in r && q[t] == r[t])
    && s.plan.original in q && q[s.plan.original] == Route(map[s.plan.original := s], 0, 0)
    && (forall i :: 0 <= i < n ==> RegistersAt(r, delays, s, i, q))
  }

  ghost predicate RegistersAt(r: Table, delays: seq<nat>, s: Subscription, i: nat, q: Table)
    requires 0 <= i < |delays| == |s.plan.retryTopics|
  {
    var t := s.plan.retryTopics[i];
    t in q && q[t] == if t in r then r[t].(owners := r[t].owners[s.plan.original := s])
                      else Route(map[s.plan.original := s], i + 1, delays[i])
  }

  /** One level more. */
  lemma RegisteredNext(r: Table, delays: seq<nat>, s: Subscription, n: nat, before: Table, q: Table)
    requires 0 < n <= |delays| == |s.plan.retryTopics| && Distinct(s.plan) && Registers(r, delays, s, n - 1, before)
    requires var t := s.plan.retryTopics[n - 1];
             var route := if t in before then before[t] else Route(map[], n, delays[n - 1]);
             q == before[t := route.(owners := route.owners[s.plan.original := s])]
    ensures Registers(r, delays, s, n, q)
  {
    assert s.plan.retryTopics[..n] == s.plan.retryTopics[..n - 1] + [s.plan.retryTopics[n - 1]];
    forall i | 0 <= i < n ensures RegistersAt(r, delays, s, i, q) {
      if i < n - 1 { assert RegistersAt(r, delays, s, i, before); }
    }
  }

  lemma {:induction false} RegisteredIs(r: Table, delays: seq<nat>, s: Subscription, n: nat)
    requires n <= |delays| == |s.plan.retryTopics| && Distinct(s.plan)
    ensures Registers(r, delays, s, n, Registered(r, delays, s, n))
  {
    if n > 0 {
      RegisteredIs(r, delays, s, n - 1);
      RegisteredNext(r, delays, s, n, Registered(r, delays, s, n - 1), Registered(r, delays, s, n));
    }
  }

  /** The table after the whole subscription was registered. */
  ghost predicate Grown(r: Table, delays: seq<nat>, s: Subscription, q: Table) {
    && |s.plan.retryTopics| == |delays|
    && (forall t :: t in q <==> t in r || s.plan.Consumes(t))
    && (forall t :: t in r && !s.plan.Consumes(t) ==> q[t] == r[t])
    && (forall i :: 0 <= i <= |delays| ==> GrownAt(r, delays, s, i, q))
  }

  ghost predicate GrownAt(r: Table, delays: seq<nat>, s: Subscription, i: nat, q: Table)
    requires 0 <= i <= |delays| == |s.plan.retryTopics|
  {
    var t := s.plan.At(i);
    && t in q && q[t].level == i && q[t].delay == (if i == 0 then 0 else delays[i - 1])
    && q[t].owners == (if t in r then r[t].owners else map[])[s.plan.original := s]
    && (t in r ==> r[t].level == i && s.kind.Each? && forall o :: o in r[t].owners ==> r[t].owners[o].kind.Each?)
  }

  lemma RegisteredGrows(r: Table, delays: seq<nat>, s: Subscription)
    requires TableOk(r, delays) && |s.plan.retryTopics| == |delays| && Distinct(s.plan) && Acceptable(r, s)
    ensures Grown(r, delays, s, Registered(r, delays, s, |delays|))
  {
    var q := Registered(r, delays, s, |delays|);
    RegisteredIs(r, delays, s, |delays|);
    assert s.plan.retryTopics[..|delays|] == s.plan.retryTopics;
    forall i | 0 <= i <= |delays| ensures GrownAt(r, delays, s, i, q) { StepGrows(r, delays, s, i, q); }
    forall t | s.plan.Consumes(t) ensures t in q { LadderIn(r, delays, s, q, t); }
  }

  lemma LadderIn(r: Table, delays: seq<nat>, s: Subscription, q: Table, t: string)
    requires |s.plan.retryTopics| == |delays| && Registers(r, delays, s, |delays|, q) && s.plan.Consumes(t)
    ensures t in q
  {
    if t != s.plan.original {
      var i :| 0 <= i < |delays| && s.plan.retryTopics[i] == t;
      assert RegistersAt(r, delays, s, i, q);
    }
  }

  /** A level of the ladder that was routed already, or is new. */
  lemma LevelGrows(r: Table, delays: seq<nat>, s: Subscription, i: nat, q: Table)
    requires 0 < i <= |delays| == |s.plan.retryTopics|
    requires RegistersAt(r, delays, s, i - 1, q) && LevelFree(r, s, i - 1)
    requires var t := s.plan.retryTopics[i - 1]; t in r ==> RouteOk(r, delays, t)
    ensures GrownAt(r, delays, s, i, q)
  {
  }

  lemma StepGrows(r: Table, delays: seq<nat>, s: Subscription, i: nat, q: Table)
    requires TableOk(r, delays) && |s.plan.retryTopics| == |delays| && Acceptable(r, s)
    requires Registers(r, delays, s, |delays|, q) && i <= |delays|
    ensures GrownAt(r, delays, s, i, q)
  {
    if i > 0 {
      assert RegistersAt(r, delays, s, i - 1, q);
      LevelGrows(r, delays, s, i, q);
    }
  }

  /** An accepted subscription keeps every promise of the table. */
  lemma RegisterKeeps(r: Table, delays: seq<nat>, s: Subscription)
    requires TableOk(r, delays) && |s.plan.retryTopics| == |delays| && Distinct(s.plan) && Acceptable(r, s)
    ensures TableOk(Registered(r, delays, s, |delays|), delays)
  {
    var q := Registered(r, delays, s, |delays|);
    RegisteredGrows(r, delays, s);
    forall t | t in q ensures RouteOk(q, delays, t) {
      if s.plan.Consumes(t) { NewRoute(r, delays, s, q, t); } else { OldRoute(r, delays, s, q, t); }
    }
  }

  /** A topic the new subscription has nothing to do with. */
  lemma OldRoute(r: Table, delays: seq<nat>, s: Subscription, q: Table, t: string)
    requires TableOk(r, delays) && Acceptable(r, s) && Grown(r, delays, s, q)
    requires t in r && !s.plan.Consumes(t)
    ensures t in q && RouteOk(q, delays, t)
  {
    assert RouteOk(r, delays, t);
    OldOwners(r, delays, s, q, t);
    RouteStays(r, delays, q, t);
  }

  /** Everyone who owned a route before still does, with the whole ladder. */
  lemma OldOwners(r: Table, delays: seq<nat>, s: Subscription, q: Table, t: string)
    requires TableOk(r, delays) && Acceptable(r, s) && Grown(r, delays, s, q)
    requires t in r && r[t].level <= |delays| && t in q && q[t].level == r[t].level
    requires forall o :: o in r[t].owners ==> o in q[t].owners && (o != s.plan.original ==> q[t].owners[o] == r[t].owners[o])
    ensures forall o :: o in r[t].owners ==> o != s.plan.original && OwnerOk(q, delays, t, o)
  {
    forall o | o in r[t].owners ensures o != s.plan.original && OwnerOk(q, delays, t, o) { OldOwner(r, delays, s, q, t, o); }
  }

  lemma RouteStays(r: Table, delays: seq<nat>, q: Table, t: string)
    requires t in r && RouteOk(r, delays, t) && t in q && q[t] == r[t]
    requires forall o :: o in r[t].owners ==> OwnerOk(q, delays, t, o)
    ensures RouteOk(q, delays, t)
  {
  }

  /** A subscription accepted before still owns its whole ladder. */
  lemma OldOwner(r: Table, delays: seq<nat>, s: Subscription, q: Table, t: string, o: string)
    requires TableOk(r, delays) && Acceptable(r, s) && Grown(r, delays, s, q)
    requires t in r && o in r[t].owners && r[t].level <= |delays|
    requires t in q && q[t].level == r[t].level && o in q[t].owners && (o != s.plan.original ==> q[t].owners[o] == r[t].owners[o])
    ensures OwnerOk(q, delays, t, o) && o != s.plan.original
  {
    assert RouteOk(r, delays, t) && OwnerOk(r, delays, t, o);
    var mine := r[t].owners[o];
    assert Owns(r, mine, 0);
    forall i | 0 <= i <= |delays| ensures Owns(q, mine, i) {
      assert Owns(r, mine, i);
      StillOwned(r, delays, s, q, mine, i);
    }
  }

  lemma StillOwned(r: Table, delays: seq<nat>, s: Subscription, q: Table, mine: Subscription, i: nat)
    requires Grown(r, delays, s, q) && s.plan.original !in r
    requires i <= |mine.plan.retryTopics| && Owns(r, mine, i) && mine.plan.original != s.plan.original
    ensures Owns(q, mine, i)
  {
    var t := mine.plan.At(i);
    if s.plan.Consumes(t) {
      var j :| 0 <= j < |delays| && s.plan.retryTopics[j] == t;
      assert GrownAt(r, delays, s, j + 1, q);
    }
  }

  lemma StepOf(p: Plan, t: string) returns (j: nat)
    requires p.Consumes(t)
    ensures j <= |p.retryTopics| && p.At(j) == t
  {
    j := 0;
    if t != p.original {
      var i :| 0 <= i < |p.retryTopics| && p.retryTopics[i] == t;
      j := i + 1;
    }
  }

  /** A topic of the new ladder. */
  lemma NewRoute(r: Table, delays: seq<nat>, s: Subscription, q: Table, t: string)
    requires TableOk(r, delays) && Distinct(s.plan) && Acceptable(r, s) && Grown(r, delays, s, q)
    requires s.plan.Consumes(t)
    ensures t in q && RouteOk(q, delays, t)
  {
    var j := StepOf(s.plan, t);
    if t in r { SharedRoute(r, delays, s, q, j); } else { FreshRoute(r, delays, s, q, j); }
  }

  /** A topic nobody consumed before has the new subscription as its one owner. */
  lemma FreshRoute(r: Table, delays: seq<nat>, s: Subscription, q: Table, j: nat)
    requires Distinct(s.plan) && Acceptable(r, s) && Grown(r, delays, s, q)
    requires j <= |delays| && s.plan.At(j) !in r
    ensures s.plan.At(j) in q && RouteOk(q, delays, s.plan.At(j))
  {
    assert GrownAt(r, delays, s, j, q);
    NewOwner(r, delays, s, q, j);
  }

  /** A shared retry topic gets one more owner, and no batch is among them. */
  lemma SharedRoute(r: Table, delays: seq<nat>, s: Subscription, q: Table, j: nat)
    requires TableOk(r, delays) && Distinct(s.plan) && Acceptable(r, s) && Grown(r, delays, s, q)
    requires j <= |delays| && s.plan.At(j) in r
    ensures s.plan.At(j) in q && RouteOk(q, delays, s.plan.At(j))
  {
    var t := s.plan.At(j);
    assert GrownAt(r, delays, s, j, q);
    NewOwner(r, delays, s, q, j);
    assert RouteOk(r, delays, t);
    OldOwners(r, delays, s, q, t);
    RouteShared(r, delays, s, q, t, j);
  }

  lemma RouteShared(r: Table, delays: seq<nat>, s: Subscription, q: Table, t: string, j: nat)
    requires j <= |delays| && t in r && t in q && q[t].level == j && q[t].delay == (if j == 0 then 0 else delays[j - 1])
    requires 0 < j && s.kind.Each? && forall o :: o in r[t].owners ==> r[t].owners[o].kind.Each?
    requires q[t].owners == r[t].owners[s.plan.original := s]
    requires OwnerOk(q, delays, t, s.plan.original) && forall o :: o in r[t].owners ==> OwnerOk(q, delays, t, o)
    ensures RouteOk(q, delays, t)
  {
  }

  lemma NewOwner(r: Table, delays: seq<nat>, s: Subscription, q: Table, j: nat)
    requires Distinct(s.plan) && Acceptable(r, s) && Grown(r, delays, s, q) && j <= |delays|
    ensures var t := s.plan.At(j);
            t in q && s.plan.original in q[t].owners && q[t].level <= |delays| && OwnerOk(q, delays, t, s.plan.original)
  {
    assert GrownAt(r, delays, s, j, q);
    forall i | 0 <= i <= |delays| ensures Owns(q, s, i) { assert GrownAt(r, delays, s, i, q); }
  }

  // ------------------------------------------- nothing is refused needlessly

  /** Every subscription accepted before still owns what it owned. */
  ghost predicate OwnersStay(r: Table, q: Table) {
    forall t, o :: t in r && o in r[t].owners ==> t in q && o in q[t].owners && q[t].owners[o] == r[t].owners[o]
  }

  /**
   * A subscription is acceptable exactly when registering it would add
   * something, keep every promise of the table, and replace nobody.
   */
  lemma AcceptableExactly(r: Table, delays: seq<nat>, s: Subscription)
    requires TableOk(r, delays) && |s.plan.retryTopics| == |delays| && Distinct(s.plan)
    ensures var q := Registered(r, delays, s, |delays|);
            Acceptable(r, s) <==> TableOk(q, delays) && OwnersStay(r, q) && q != r
  {
    var q := Registered(r, delays, s, |delays|);
    RegisteredIs(r, delays, s, |delays|);
    if Acceptable(r, s) {
      RegisterKeeps(r, delays, s);
      OwnersAllStay(r, delays, s);
    }
    if TableOk(q, delays) && OwnersStay(r, q) && q != r { MustBeAcceptable(r, delays, s, q); }
  }

  lemma OwnersAllStay(r: Table, delays: seq<nat>, s: Subscription)
    requires TableOk(r, delays) && |s.plan.retryTopics| == |delays| && Distinct(s.plan) && Acceptable(r, s)
    ensures OwnersStay(r, Registered(r, delays, s, |delays|))
  {
    var q := Registered(r, delays, s, |delays|);
    RegisteredGrows(r, delays, s);
    forall t, o | t in r && o in r[t].owners ensures t in q && o in q[t].owners && q[t].owners[o] == r[t].owners[o] {
      OwnerStays(r, delays, s, q, t, o);
    }
  }

  lemma MustBeAcceptable(r: Table, delays: seq<nat>, s: Subscription, q: Table)
    requires TableOk(r, delays) && |s.plan.retryTopics| == |delays| && Distinct(s.plan)
    requires Registers(r, delays, s, |delays|, q) && TableOk(q, delays) && OwnersStay(r, q) && q != r
    ensures Acceptable(r, s)
  {
    NewToTheTable(r, delays, s, q);
    forall i | 0 <= i < |s.plan.retryTopics| ensures LevelFree(r, s, i) { LevelMustBeFree(r, delays, s, q, i); }
    DlqsMustBeClear(r, delays, s, q);
  }

  lemma OwnerStays(r: Table, delays: seq<nat>, s: Subscription, q: Table, t: string, o: string)
    requires TableOk(r, delays) && Acceptable(r, s) && Grown(r, delays, s, q) && t in r && o in r[t].owners
    ensures t in q && o in q[t].owners && q[t].owners[o] == r[t].owners[o]
  {
    assert RouteOk(r, delays, t) && OwnerOk(r, delays, t, o);
    assert Owns(r, r[t].owners[o], 0);
    if s.plan.Consumes(t) {
      var j := StepOf(s.plan, t);
      assert GrownAt(r, delays, s, j, q);
    }
  }

  /** Where the original topic is routed, another subscription would be replaced, or the same one was accepted already. */
  lemma NewToTheTable(r: Table, delays: seq<nat>, s: Subscription, q: Table)
    requires TableOk(r, delays) && Distinct(s.plan) && |s.plan.retryTopics| == |delays|
    requires Registers(r, delays, s, |delays|, q) && OwnersStay(r, q) && q != r
    ensures s.plan.original !in r
  {
    var t := s.plan.original;
    if t in r {
      assert RouteOk(r, delays, t);
      var o :| o in r[t].owners;
      assert o == t && r[t].owners[o] == s;
      SameAgain(r, delays, s, q);
    }
  }

  lemma SameAgain(r: Table, delays: seq<nat>, s: Subscription, q: Table)
    requires TableOk(r, delays) && Distinct(s.plan) && |s.plan.retryTopics| == |delays|
    requires var t := s.plan.original; t in r && t in r[t].owners && r[t].owners[t] == s
    requires Registers(r, delays, s, |delays|, q)
    ensures q == r
  {
    var o := s.plan.original;
    assert RouteOk(r, delays, o) && OwnerOk(r, delays, o, o);
    SameLevel(s.plan, r[o].level, 0);
    assert r[o].owners == map[o := s];
    assert s.plan.retryTopics[..|delays|] == s.plan.retryTopics;
    forall t | t in q ensures t in r && q[t] == r[t] {
      if t in s.plan.retryTopics { SameLadder(r, delays, s, q, t); }
    }
  }

  lemma SameLadder(r: Table, delays: seq<nat>, s: Subscription, q: Table, t: string)
    requires |s.plan.retryTopics| == |delays| && t in s.plan.retryTopics && Registers(r, delays, s, |delays|, q)
    requires forall i :: 0 <= i <= |delays| ==> Owns(r, s, i)
    ensures t in r && t in q && q[t] == r[t]
  {
    var i :| 0 <= i < |delays| && s.plan.retryTopics[i] == t;
    assert RegistersAt(r, delays, s, i, q) && Owns(r, s, i + 1);
    assert r[t].owners[s.plan.original := s] == r[t].owners;
  }

  /** A level routed already that is not free would put the owner on a route that is not its own, or beside a batch. */
  lemma LevelMustBeFree(r: Table, delays: seq<nat>, s: Subscription, q: Table, i: nat)
    requires TableOk(r, delays) && Distinct(s.plan) && i < |s.plan.retryTopics| == |delays|
    requires Registers(r, delays, s, |delays|, q) && TableOk(q, delays) && OwnersStay(r, q) && s.plan.original !in r
    ensures LevelFree(r, s, i)
  {
    var t, me := s.plan.retryTopics[i], s.plan.original;
    assert RegistersAt(r, delays, s, i, q);
    if t in r {
      assert RouteOk(q, delays, t) && OwnerOk(q, delays, t, me);
      assert q[t].level == i + 1 by { SameLevel(s.plan, q[t].level, i + 1); }
      assert RouteOk(r, delays, t);
      forall o | o in r[t].owners ensures r[t].owners[o].kind.Each? && s.kind.Each? { NotBeside(r, delays, s, q, t, o); }
    }
  }

  lemma SameLevel(p: Plan, i: nat, j: nat)
    requires Distinct(p) && i <= |p.retryTopics| && j <= |p.retryTopics| && p.At(i) == p.At(j)
    ensures i == j
  {
  }

  lemma NotBeside(r: Table, delays: seq<nat>, s: Subscription, q: Table, t: string, o: string)
    requires TableOk(r, delays) && t in r && o in r[t].owners && s.plan.original !in r
    requires t in q && o in q[t].owners && q[t].owners[o] == r[t].owners[o] && BatchAlone(q[t])
    requires s.plan.original in q[t].owners && q[t].owners[s.plan.original] == s
    ensures r[t].owners[o].kind.Each? && s.kind.Each?
  {
    assert RouteOk(r, delays, t) && OwnerOk(r, delays, t, o) && Owns(r, r[t].owners[o], 0);
  }

  lemma DlqsMustBeClear(r: Table, delays: seq<nat>, s: Subscription, q: Table)
    requires |s.plan.retryTopics| == |delays|
    requires Registers(r, delays, s, |delays|, q) && TableOk(q, delays) && OwnersStay(r, q)
    ensures DlqsClear(r, s) && (s.plan.dlq.Some? ==> s.plan.dlq.value !in r)
  {
    var me := s.plan.original;
    assert RouteOk(q, delays, me) && OwnerOk(q, delays, me, me);
    forall t, o | t in r && o in r[t].owners && r[t].owners[o].plan.dlq.Some? ensures !s.plan.Consumes(r[t].owners[o].plan.dlq.value) {
      assert RouteOk(q, delays, t) && OwnerOk(q, delays, t, o);
      if s.plan.Consumes(r[t].owners[o].plan.dlq.value) { LadderIn(r, delays, s, q, r[t].owners[o].plan.dlq.value); }
    }
  }

  /** What is wrong with a subscription that is refused. */
  ghost predicate Because(r: Table, s: Subscription, refusal: Option<Refusal>) {
    match refusal
    case None => true
    case Some(Claimed) => s.plan.original in r
    case Some(WrongLevel) =>
      exists i :: 0 <= i < |s.plan.retryTopics| && s.plan.retryTopics[i] in r && r[s.plan.retryTopics[i]].level != i + 1
    case Some(SharedByBatch) => exists i :: 0 <= i < |s.plan.retryTopics| && BesideBatch(r, s, i)
    case Some(DlqConsumed) => s.plan.dlq.Some? && s.plan.dlq.value in r
    case Some(ConsumesDlq) => !DlqsClear(r, s)
    case Some(_) => false
  }

  /** A level that would be shared, and one of those sharing it takes batches. */
  ghost predicate BesideBatch(r: Table, s: Subscription, i: nat)
    requires i < |s.plan.retryTopics|
  {
    var t := s.plan.retryTopics[i];
    t in r && (s.kind.Batch? || exists o :: o in r[t].owners && r[t].owners[o].kind.Batch?)
  }

  // ------------------------------------------------------------ the class

  /** The part of a consumer that subscriptions go into: `route()` and the maps it fills. */
  class RouteTable {
    const delays: seq<nat>
    var routes: Table

    ghost predicate Valid() reads this { TableOk(routes, delays) }

    constructor (delays: seq<nat>)
      ensures Valid() && routes == map[] && this.delays == delays
    {
      this.delays := delays;
      routes := map[];
    }

    /**
     * Accepts a subscription with its ladder, or refuses it and leaves the
     * table as it was.
     */
    method Subscribe(s: Subscription) returns (refusal: Option<Refusal>)
      requires Valid() && Distinct(s.plan) && |s.plan.retryTopics| == |delays|
      modifies this
      ensures Valid()
      ensures refusal.None? <==> Acceptable(old(routes), s)
      ensures Because(old(routes), s, refusal)
      ensures routes == if refusal.None? then Registered(old(routes), delays, s, |delays|) else old(routes)
    {
      if s.plan.original in routes { return Some(Claimed); }
      for level := 1 to |delays| + 1
        invariant forall i :: 0 <= i < level - 1 ==> LevelFree(routes, s, i)
      {
        var t := s.plan.retryTopics[level - 1];
        if t in routes {
          if routes[t].level != level {
            assert !LevelFree(routes, s, level - 1);
            return Some(WrongLevel);
          }
          if s.kind.Batch? || exists o :: o in routes[t].owners && routes[t].owners[o].kind.Batch? {
            assert !LevelFree(routes, s, level - 1) && BesideBatch(routes, s, level - 1);
            return Some(SharedByBatch);
          }
        }
        assert LevelFree(routes, s, level - 1);
      }
      if s.plan.dlq.Some? && s.plan.dlq.value in routes { return Some(DlqConsumed); }
      var clash := FindDlq(s);
      if clash { return Some(ConsumesDlq); }
      RegisterKeeps(routes, delays, s);
      Register(s);
      refusal := None;
    }

    /** Whether the ladder of `s` would consume the DLQ of a subscription already here. */
    method FindDlq(s: Subscription) returns (clash: bool)
      ensures clash <==> !DlqsClear(routes, s)
    {
      var topics := routes.Keys;
      while topics != {}
        invariant topics <= routes.Keys
        invariant forall t :: t in routes && t !in topics ==> OwnersClear(routes, s, t)
        decreases topics
      {
        var t :| t in topics;
        topics := topics - {t};
        var owners := routes[t].owners.Keys;
        while owners != {}
          invariant owners <= routes[t].owners.Keys
          invariant forall o :: o in routes[t].owners && o !in owners && routes[t].owners[o].plan.dlq.Some? ==>
            !s.plan.Consumes(routes[t].owners[o].plan.dlq.value)
          decreases owners
        {
          var o :| o in owners;
          owners := owners - {o};
          var dlq := routes[t].owners[o].plan.dlq;
          if dlq.Some? && s.plan.Consumes(dlq.value) { return true; }
        }
        assert OwnersClear(routes, s, t);
      }
      forall t, o | t in routes && o in routes[t].owners && routes[t].owners[o].plan.dlq.Some?
        ensures !s.plan.Consumes(routes[t].owners[o].plan.dlq.value)
      {
        assert OwnersClear(routes, s, t);
      }
      clash := false;
    }

    /** Adds the original topic and every level of the ladder, sharing the routes that exist. */
    method Register(s: Subscription)
      requires |s.plan.retryTopics| == |delays|
      modifies this
      ensures routes == Registered(old(routes), delays, s, |delays|)
    {
      routes := routes[s.plan.original := Route(map[s.plan.original := s], 0, 0)];
      for level := 1 to |delays| + 1
        invariant routes == Registered(old(routes), delays, s, level - 1)
      {
        var t := s.plan.retryTopics[level - 1];
        var route := if t in routes then routes[t] else Route(map[], level, delays[level - 1]);
        routes := routes[t := route.(owners := route.owners[s.plan.original := s])];
      }
    }
  }

  ghost predicate OwnersClear(r: Table, s: Subscription, t: string)
    requires t in r
  {
    forall o :: o in r[t].owners && r[t].owners[o].plan.dlq.Some? ==> !s.plan.Consumes(r[t].owners[o].plan.dlq.value)
  }

  lemma OnlyOne(s: set<string>)
    ensures |s| == 1 ==> exists o :: s == {o}
  {
    if |s| == 1 {
      var o :| o in s;
      assert |s - {o}| == 0;
      assert s == {o} + (s - {o});
      assert s == {o};
    }
  }

  /** The subscription a message on this route belongs to, given the original topic its header names. */
  function OwnerOf(route: Route, named: Option<string>): Option<Subscription> {
    if |route.owners| == 1 then
      OnlyOne(route.owners.Keys);
      var o :| o in route.owners.Keys; Some(route.owners[o])
    else if named.Some? && named.value in route.owners then Some(route.owners[named.value])
    else None
  }
}
