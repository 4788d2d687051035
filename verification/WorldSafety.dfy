/**
 * What every reachable state of the broker and its members keeps: no offset
 * below a committed one is without an outcome, and the copies are real.
 */
module WorldSafety {
  import opened Basics
  import opened Lanes
  import opened LaneSafety
  import opened Order
  import opened Routes
  import opened Headers
  import opened World

  ghost predicate ConfigOk(c: Config) {
    && TableOk(c.routes, c.delays)
    && forall t :: t in c.routes ==> SizesOk(c.routes[t])
  }

  /** A batch size is a positive integer. */
  ghost predicate SizesOk(route: Route) {
    forall o :: o in route.owners && route.owners[o].kind.Batch? ==> route.owners[o].kind.size >= 1
  }

  /** Every offset of the partition from the group's start up to `upto` has an outcome. */
  ghost predicate SettledTo(w: World, tp: TP, upto: nat) {
    forall off :: w.Init(tp) <= off < upto ==> HasOutcome(w, tp, off)
  }

  /** The handler succeeded on the message, or a copy of it was acknowledged. */
  ghost predicate HasOutcome(w: World, tp: TP, off: nat) {
    exists f :: f in w.fates && f.at == tp && f.off == off
  }

  ghost predicate CommitsOk(w: World) {
    && (forall tp, c :: (tp, c) in w.ever ==> c <= |w.Log(tp)| && Covered(w.Init(tp), w.Accounted(tp), c, []))
    && (forall tp :: tp in w.committed ==> (tp, w.committed[tp]) in w.ever)
  }

  /** A copy carries the bytes of its original one step further down the ladder, where the group has not started past it. */
  ghost predicate FateOk(c: Config, w: World, f: Fate) {
    && f.at.topic in c.routes
    && f.off < |w.Log(f.at)|
    && (f.Copied? ==>
          && w.Init(f.to) <= f.toOff < |w.Log(f.to)|
          && w.Log(f.to)[f.toOff].key == w.Log(f.at)[f.off].key
          && w.Log(f.to)[f.toOff].value == w.Log(f.at)[f.off].value
          && StepDown(c, f.at.topic, f.to.topic)
          && exists hop :: CopyBy(c, w.Log(f.at)[f.off], f.at.topic, w.Log(f.to)[f.toOff], f.to.topic, hop))
  }

  /** `copy` is what the hop `hop` of a record on `from` leaves on `to`. */
  ghost predicate CopyBy(c: Config, rec: Rec, from: string, copy: Rec, to: string, hop: HopChoice)
    requires from in c.routes
  {
    Destination(c, from, rec, hop.WantsRetry()) == Some(to) && copy == HopRecord(c, from, rec, hop)
  }

  /** One step down: the next retry level of an owner, or the DLQ of one, which nobody here consumes. */
  ghost predicate StepDown(c: Config, from: string, to: string)
    requires from in c.routes
  {
    if to in c.routes then c.routes[to].level == c.routes[from].level + 1 <= |c.delays|
    else exists o :: o in c.routes[from].owners && c.routes[from].owners[o].plan.dlq == Some(to)
  }

  ghost predicate FatesOk(c: Config, w: World) {
    && (forall f :: f in w.fates ==> FateOk(c, w, f))
    && (forall f, g :: f in w.fates && g in w.fates && f.Copied? && g.Copied? && f.to == g.to && f.toOff == g.toOff ==> f == g)
  }

  ghost predicate MembersOk(w: World) {
    forall m :: m in w.members ==> (w.members[m].abandoned ==> !w.members[m].running)
  }

  ghost predicate LaneFine(g: Guard, c: Config, w: World, k: Key)
    requires k in w.lanes
  {
    && k.member in w.members && k.tp.topic in c.routes
    && Good(g, KindOf(c, k.tp.topic), w.members[k.member].running, w.members[k.member].abandoned,
              w.Init(k.tp), |w.Log(k.tp)|, Dead(c, w, k.tp), w.Accounted(k.tp), w.lanes[k])
  }

  ghost predicate StartsOk(w: World) { forall tp :: w.Init(tp) <= |w.Log(tp)| }

  /** The books, the members, and every lane kept one way or the other. */
  ghost predicate WorldOk(g: Guard, c: Config, w: World) {
    && StartsOk(w) && MembersOk(w) && CommitsOk(w) && FatesOk(c, w)
    && forall k :: k in w.lanes ==> LaneFine(g, c, w, k)
  }

  /** The step is clean, or in order, for the member that takes it. */
  ghost predicate GuardedAt(g: Guard, c: Config, w: World, k: Key, e: Event)
    requires k.tp.topic in c.routes
  {
    k.member in w.members ==> Guarded(g, KindOf(c, k.tp.topic), w.Init(k.tp), Dead(c, w, k.tp), w.Accounted(k.tp), w.members[k.member].running, w.LaneOf(k), e)
  }

  ghost predicate GuardedAct(g: Guard, c: Config, w: World, a: Act) {
    a.At? && a.key.tp.topic in c.routes ==> GuardedAt(g, c, w, a.key, a.event)
  }

  // -------------------------------------------------------------- the proof

  lemma LaneAlways(g: Guard, c: Config, w: World, k: Key)
    requires ConfigOk(c) && WorldOk(g, c, w) && k.member in w.members && k.tp.topic in c.routes
    ensures Good(g, KindOf(c, k.tp.topic), w.members[k.member].running, w.members[k.member].abandoned,
                   w.Init(k.tp), |w.Log(k.tp)|, Dead(c, w, k.tp), w.Accounted(k.tp), w.LaneOf(k))
  {
    if k in w.lanes {
      assert LaneFine(g, c, w, k);
    } else {
      KindSized(c, k.tp.topic);
      UntouchedGood(g, KindOf(c, k.tp.topic), w.members[k.member].running, w.members[k.member].abandoned, w.Init(k.tp), |w.Log(k.tp)|, Dead(c, w, k.tp), w.Accounted(k.tp));
    }
  }

  lemma KindSized(c: Config, topic: string)
    requires ConfigOk(c) && topic in c.routes
    ensures KindOf(c, topic).Batch? ==> KindOf(c, topic).size >= 1
  {
  }

  lemma UntouchedGood(g: Guard, k: Kind, running: bool, abandoned: bool, init: nat, high: nat, dead: set<nat>, S: set<nat>)
    requires (k.Batch? ==> k.size >= 1) && (abandoned ==> !running)
    ensures Good(g, k, running, abandoned, init, high, dead, S, UNASSIGNED)
  {
  }

  lemma LaneIsWeak(g: Guard, c: Config, w: World, k: Key)
    requires ConfigOk(c) && WorldOk(g, c, w) && k.member in w.members && k.tp.topic in c.routes
    ensures WeakLane(KindOf(c, k.tp.topic), w.members[k.member].running, w.Init(k.tp), |w.Log(k.tp)|, Dead(c, w, k.tp), w.Accounted(k.tp), w.LaneOf(k))
  {
    LaneAlways(g, c, w, k);
    GoodIsWeak(g, KindOf(c, k.tp.topic), w.members[k.member].running, w.members[k.member].abandoned,
               w.Init(k.tp), |w.Log(k.tp)|, Dead(c, w, k.tp), w.Accounted(k.tp), w.LaneOf(k));
  }

  /** The broker only grows: longer logs, more outcomes. */
  ghost predicate Grows(w: World, w': World) {
    && w'.init == w.init && w.fates <= w'.fates && w.taken <= w'.taken && w.ever <= w'.ever
    && forall tp :: w.Log(tp) <= w'.Log(tp)
  }

  lemma AccountedGrows(w: World, w': World, tp: TP)
    requires Grows(w, w')
    ensures w.Accounted(tp) <= w'.Accounted(tp)
  {
    forall x | x in w.Accounted(tp) ensures x in w'.Accounted(tp) {
      if x in w.Settled(tp) {
        var f :| f in w.fates && f.at == tp && f.off == x;
        assert f in w'.fates;
      } else {
        var t :| t in w.taken && t.at == tp && t.off == x;
        assert t in w'.taken;
      }
    }
  }

  lemma DeadGrows(c: Config, w: World, w': World, tp: TP)
    requires Grows(w, w')
    ensures Dead(c, w, tp) <= Dead(c, w', tp)
  {
    assert w.Log(tp) <= w'.Log(tp);
  }

  lemma OldFates(c: Config, w: World, w': World, f: Fate)
    requires Grows(w, w') && FateOk(c, w, f)
    ensures FateOk(c, w', f)
  {
  }

  lemma LaneSurvives(g: Guard, c: Config, w: World, w': World, k: Key)
    requires ConfigOk(c) && WorldOk(g, c, w) && Grows(w, w') && k in w.lanes && k in w'.lanes
    requires w'.lanes[k] == w.lanes[k]
    requires k.member in w'.members && k.member in w.members
    requires w'.members[k.member].running == w.members[k.member].running
    requires w'.members[k.member].abandoned ==> !w'.members[k.member].running
    ensures LaneFine(g, c, w', k)
  {
    assert LaneFine(g, c, w, k);
    AccountedGrows(w, w', k.tp);
    DeadGrows(c, w, w', k.tp);
    GoodMonotone(g, KindOf(c, k.tp.topic), w.members[k.member].running, w.members[k.member].abandoned, w.Init(k.tp),
             |w.Log(k.tp)|, Dead(c, w, k.tp), w.Accounted(k.tp), |w'.Log(k.tp)|, Dead(c, w', k.tp), w'.Accounted(k.tp), w.lanes[k]);
  }

  /** A destination is one step down from the topic the message failed on. */
  lemma DestinationDown(c: Config, topic: string, rec: Rec, wantsRetry: bool)
    requires ConfigOk(c) && topic in c.routes
    requires Destination(c, topic, rec, wantsRetry).Some?
    ensures StepDown(c, topic, Destination(c, topic, rec, wantsRetry).value)
  {
    assert RouteOk(c.routes, c.delays, topic);
    var dest := Destination(c, topic, rec, wantsRetry).value;
    match Owner(c, topic, rec)
    case Some(s) =>
      OwnerOwns(c, topic, rec);
      NextRoute(c.routes, c.delays, topic, s.plan.original);
    case None =>
      var o :| o in c.routes[topic].owners;
      NextRoute(c.routes, c.delays, topic, o);
  }

  lemma OwnerOwns(c: Config, topic: string, rec: Rec)
    requires ConfigOk(c) && topic in c.routes && Owner(c, topic, rec).Some?
    ensures var s := Owner(c, topic, rec).value;
            s.plan.original in c.routes[topic].owners && c.routes[topic].owners[s.plan.original] == s
  {
    assert RouteOk(c.routes, c.delays, topic);
    var s := Owner(c, topic, rec).value;
    var o :| o in c.routes[topic].owners && c.routes[topic].owners[o] == s;
    assert OwnerOk(c.routes, c.delays, topic, o);
  }

  // ------------------------------------------- what a step leaves behind

  lemma AppendGrows(w: World, tp: TP, rec: Rec)
    ensures Grows(w, Appended(w, tp, rec))
  {
  }

  lemma RecordedGrows(c: Config, w: World, k: Key, e: Event, hop: HopChoice, r: Result)
    requires CanAct(c, w, k, e, hop)
    ensures var w' := Recorded(c, w, k, e, hop, r);
            && Grows(w, w') && w'.members == w.members && w'.lanes == w.lanes && w'.committed == w.committed && w'.ever == w.ever
  {
  }

  lemma FatesGrow(c: Config, w: World, w': World)
    requires Grows(w, w') && FatesOk(c, w)
    requires forall f :: f in w'.fates - w.fates ==> FateOk(c, w', f)
    requires forall f, g :: f in w'.fates - w.fates && g in w'.fates && f.Copied? && g.Copied? && f.to == g.to && f.toOff == g.toOff ==> f == g
    ensures FatesOk(c, w')
  {
    forall f | f in w'.fates ensures FateOk(c, w', f) {
      if f in w.fates { OldFates(c, w, w', f); }
    }
  }

  /** A hop's copy is real and one step down. */
  lemma HopFate(c: Config, w: World, k: Key, e: Event, hop: HopChoice, r: Result)
    requires ConfigOk(c) && StartsOk(w) && CanAct(c, w, k, e, hop) && e.HopAcked?
    ensures var to := HopTo(c, w, k, e, hop);
            FateOk(c, Recorded(c, w, k, e, hop, r), Copied(k.tp, Forwarded(w, k, e), to, |w.Log(to)|))
  {
    var off, to := Forwarded(w, k, e), HopTo(c, w, k, e, hop);
    DestinationDown(c, k.tp.topic, w.Log(k.tp)[off], hop.WantsRetry());
    CopyLands(w, Recorded(c, w, k, e, hop, r), to, HopRecord(c, k.tp.topic, w.Log(k.tp)[off], hop));
    CopyIsReal(c, w, Recorded(c, w, k, e, hop, r), k.tp, off, to, hop);
  }

  lemma CopyLands(w: World, w': World, to: TP, rec: Rec)
    requires w'.logs == Appended(w, to, rec).logs
    ensures w'.Log(to) == w.Log(to) + [rec] && forall tp :: w.Log(tp) <= w'.Log(tp)
  {
  }

  lemma CopyIsReal(c: Config, w: World, w': World, at: TP, off: nat, to: TP, hop: HopChoice)
    requires at.topic in c.routes && off < |w.Log(at)| && Destination(c, at.topic, w.Log(at)[off], hop.WantsRetry()) == Some(to.topic)
    requires w'.Log(to) == w.Log(to) + [HopRecord(c, at.topic, w.Log(at)[off], hop)] && w.Log(at) <= w'.Log(at)
    requires w'.Init(to) <= |w.Log(to)| && StepDown(c, at.topic, to.topic)
    ensures FateOk(c, w', Copied(at, off, to, |w.Log(to)|))
  {
    assert w'.Log(at)[off] == w.Log(at)[off];
    assert CopyBy(c, w'.Log(at)[off], at.topic, w'.Log(to)[|w.Log(to)|], to.topic, hop);
  }

  /** It is nobody else's copy. */
  lemma HopRecorded(c: Config, w: World, k: Key, e: Event, hop: HopChoice, r: Result)
    requires ConfigOk(c) && StartsOk(w) && FatesOk(c, w) && CanAct(c, w, k, e, hop) && e.HopAcked?
    ensures FatesOk(c, Recorded(c, w, k, e, hop, r))
  {
    HopFate(c, w, k, e, hop, r);
    RecordedGrows(c, w, k, e, hop, r);
    var to := HopTo(c, w, k, e, hop);
    forall g | g in w.fates && g.Copied? && g.to == to ensures g.toOff < |w.Log(to)| {
      assert FateOk(c, w, g);
    }
    HopAlone(c, w, Recorded(c, w, k, e, hop, r), Copied(k.tp, Forwarded(w, k, e), to, |w.Log(to)|));
  }

  lemma HopAlone(c: Config, w: World, w': World, f: Fate)
    requires FatesOk(c, w) && Grows(w, w') && w'.fates == w.fates + {f} && f.Copied? && FateOk(c, w', f)
    requires forall g :: g in w.fates && g.Copied? && g.to == f.to ==> g.toOff < f.toOff
    ensures FatesOk(c, w')
  {
    FatesGrow(c, w, w');
  }

  lemma VerdictRecorded(c: Config, w: World, k: Key, e: Event, hop: HopChoice, r: Result)
    requires ConfigOk(c) && FatesOk(c, w) && CanAct(c, w, k, e, hop) && !e.HopAcked?
    requires forall x :: x in r.settles ==> x < |w.Log(k.tp)|
    ensures FatesOk(c, Recorded(c, w, k, e, hop, r))
  {
    var w' := Recorded(c, w, k, e, hop, r);
    RecordedGrows(c, w, k, e, hop, r);
    forall f | f in w'.fates - w.fates ensures f.Processed? && FateOk(c, w', f) {
      assert f.off in r.settles;
    }
    FatesGrow(c, w, w');
  }

  /** What a step leaves behind, seen from its partition. */
  lemma RecordedAccounts(c: Config, w: World, k: Key, e: Event, hop: HopChoice, r: Result)
    requires CanAct(c, w, k, e, hop)
    requires e.HopAcked? ==> r.settles == [Forwarded(w, k, e)] && r.takes == []
    requires r.takes != [] ==> e.TransactionCommit?
    ensures Gains(w.Accounted(k.tp), r) <= Recorded(c, w, k, e, hop, r).Accounted(k.tp)
  {
    var w' := Recorded(c, w, k, e, hop, r);
    RecordedGrows(c, w, k, e, hop, r);
    AccountedGrows(w, w', k.tp);
    forall x | x in r.settles + r.takes ensures x in w'.Accounted(k.tp) {
      if x in r.settles {
        SettledRecorded(c, w, k, e, hop, r, x);
      } else {
        assert Taken(k.tp, x, k.member, w.LaneOf(k).tasks[e.id].run) in w'.taken;
      }
    }
  }

  lemma SettledRecorded(c: Config, w: World, k: Key, e: Event, hop: HopChoice, r: Result, x: nat)
    requires CanAct(c, w, k, e, hop) && x in r.settles
    requires e.HopAcked? ==> r.settles == [Forwarded(w, k, e)]
    ensures HasOutcome(Recorded(c, w, k, e, hop, r), k.tp, x) && x in Recorded(c, w, k, e, hop, r).Settled(k.tp)
  {
    var w' := Recorded(c, w, k, e, hop, r);
    var f := if e.HopAcked? then Copied(k.tp, x, HopTo(c, w, k, e, hop), |w.Log(HopTo(c, w, k, e, hop))|) else Processed(k.tp, x);
    assert f in w'.fates && f.at == k.tp && f.off == x;
  }

  /** Commits stay covered as outcomes accumulate; a new one has to be covered itself. */
  lemma CommitsGrow(w: World, w': World)
    requires Grows(w, w') && CommitsOk(w)
    requires forall tp, c :: (tp, c) in w'.ever && (tp, c) !in w.ever ==> c <= |w'.Log(tp)| && Covered(w'.Init(tp), w'.Accounted(tp), c, [])
    requires forall tp :: tp in w'.committed ==> (tp, w'.committed[tp]) in w'.ever
    ensures CommitsOk(w')
  {
    forall tp, c | (tp, c) in w'.ever
      ensures c <= |w'.Log(tp)| && Covered(w'.Init(tp), w'.Accounted(tp), c, [])
    {
      if (tp, c) in w.ever { AccountedGrows(w, w', tp); }
    }
  }

  lemma StopSurvives(g: Guard, c: Config, w: World, m: nat)
    requires WorldOk(g, c, w) && m in w.members
    ensures WorldOk(g, c, StopMember(w, m))
  {
    var w' := StopMember(w, m);
    forall tp ensures w'.Accounted(tp) == w.Accounted(tp) && w'.Log(tp) == w.Log(tp) && w'.Init(tp) == w.Init(tp) {}
    forall f | f in w.fates ensures FateOk(c, w', f) { assert FateOk(c, w, f); }
    forall k | k in w'.lanes ensures LaneFine(g, c, w', k) {
      assert LaneFine(g, c, w, k);
      if k.member == m {
        GoodStops(g, KindOf(c, k.tp.topic), w.members[m].running, w.members[m].abandoned, w.Init(k.tp), |w.Log(k.tp)|, Dead(c, w, k.tp), w.Accounted(k.tp), w.lanes[k]);
      }
    }
  }

  /** What the broker lets a step do: start where the group committed, and forward what has somewhere to go. */
  lemma StepAllowed(c: Config, w: World, k: Key, e: Event, hop: HopChoice)
    requires StartsOk(w) && CommitsOk(w) && CanAct(c, w, k, e, hop)
    ensures e.Assign? ==> e.start <= |w.Log(k.tp)| && Covered(w.Init(k.tp), w.Accounted(k.tp), e.start, [])
    ensures e.HopAcked? ==> Forwarded(w, k, e) !in Dead(c, w, k.tp)
  {
    if e.Assign? { assert Covered(w.Init(k.tp), w.Accounted(k.tp), e.start, []); }
  }

  /** The lane's side of a step, before the broker recorded it. */
  lemma LaneStepKeeps(g: Guard, c: Config, w: World, k: Key, e: Event, hop: HopChoice)
    requires ConfigOk(c) && WorldOk(g, c, w) && CanAct(c, w, k, e, hop) && GuardedAt(g, c, w, k, e)
    ensures GoodAfter(g, KindOf(c, k.tp.topic), w.members[k.member].running, w.members[k.member].abandoned, w.Init(k.tp), |w.Log(k.tp)|,
                 Dead(c, w, k.tp), w.Accounted(k.tp), StepAt(c, w, k, e, hop))
  {
    LaneAlways(g, c, w, k);
    StepAllowed(c, w, k, e, hop);
    GoodStep(g, KindOf(c, k.tp.topic), w.members[k.member].running, w.members[k.member].abandoned, w.Init(k.tp), |w.Log(k.tp)|,
              Dead(c, w, k.tp), w.Accounted(k.tp), w.LaneOf(k), e);
  }

  /** What a step settles and takes are messages of the partition. */
  lemma StepSettles(g: Guard, c: Config, w: World, k: Key, e: Event, hop: HopChoice)
    requires ConfigOk(c) && WorldOk(g, c, w) && CanAct(c, w, k, e, hop)
    ensures var r := StepAt(c, w, k, e, hop);
            && (forall x :: x in r.settles ==> x < |w.Log(k.tp)|)
            && (e.HopAcked? ==> r.settles == [Forwarded(w, k, e)] && r.takes == [])
            && (r.takes != [] ==> e.TransactionCommit?)
  {
    LaneIsWeak(g, c, w, k);
    SettlesOpen(KindOf(c, k.tp.topic), w.members[k.member].running, w.members[k.member].abandoned, w.Init(k.tp), |w.Log(k.tp)|,
                Dead(c, w, k.tp), w.Accounted(k.tp), w.LaneOf(k), e);
  }

  lemma RecordedKeeps(c: Config, w: World, k: Key, e: Event, hop: HopChoice, r: Result)
    requires ConfigOk(c) && StartsOk(w) && FatesOk(c, w) && CommitsOk(w) && CanAct(c, w, k, e, hop)
    requires forall x :: x in r.settles ==> x < |w.Log(k.tp)|
    requires e.HopAcked? ==> r.settles == [Forwarded(w, k, e)]
    ensures var w0 := Recorded(c, w, k, e, hop, r);
            Grows(w, w0) && FatesOk(c, w0) && CommitsOk(w0) && w0.lanes == w.lanes && w0.members == w.members
  {
    RecordedGrows(c, w, k, e, hop, r);
    FatesRecorded(c, w, k, e, hop, r);
    SameCommits(w, Recorded(c, w, k, e, hop, r));
  }

  lemma FatesRecorded(c: Config, w: World, k: Key, e: Event, hop: HopChoice, r: Result)
    requires ConfigOk(c) && StartsOk(w) && FatesOk(c, w) && CanAct(c, w, k, e, hop)
    requires forall x :: x in r.settles ==> x < |w.Log(k.tp)|
    ensures FatesOk(c, Recorded(c, w, k, e, hop, r))
  {
    if e.HopAcked? { HopRecorded(c, w, k, e, hop, r); } else { VerdictRecorded(c, w, k, e, hop, r); }
  }

  lemma SameCommits(w: World, w': World)
    requires Grows(w, w') && CommitsOk(w) && w'.ever == w.ever && w'.committed == w.committed
    ensures CommitsOk(w')
  {
    CommitsGrow(w, w');
  }

  lemma CommittedKeeps(c: Config, w: World, tp: TP, o: Option<nat>)
    requires FatesOk(c, w) && CommitsOk(w)
    requires o.Some? ==> o.value <= |w.Log(tp)| && Covered(w.Init(tp), w.Accounted(tp), o.value, [])
    ensures var w1 := Committed(w, tp, o);
            && Grows(w, w1) && FatesOk(c, w1) && CommitsOk(w1) && w1.lanes == w.lanes && w1.members == w.members
            && w1.Accounted(tp) == w.Accounted(tp) && w1.Log(tp) == w.Log(tp)
  {
    var w1 := Committed(w, tp, o);
    forall f | f in w1.fates ensures FateOk(c, w1, f) { assert FateOk(c, w, f); }
    forall t ensures w1.Log(t) == w.Log(t) && w1.Accounted(t) == w.Accounted(t) && w1.Init(t) == w.Init(t) {}
    CommitsGrow(w, w1);
  }

  /** The books once the step's records are made, before it commits. */
  lemma BooksRecorded(g: Guard, c: Config, w: World, k: Key, e: Event, hop: HopChoice)
    requires ConfigOk(c) && WorldOk(g, c, w) && CanAct(c, w, k, e, hop)
    ensures var r := StepAt(c, w, k, e, hop); var w0 := Recorded(c, w, k, e, hop, r);
            && Grows(w, w0) && FatesOk(c, w0) && CommitsOk(w0) && w0.lanes == w.lanes && w0.members == w.members
            && Gains(w.Accounted(k.tp), r) <= w0.Accounted(k.tp) && |w.Log(k.tp)| <= |w0.Log(k.tp)|
  {
    var r := StepAt(c, w, k, e, hop);
    StepSettles(g, c, w, k, e, hop);
    RecordedKeeps(c, w, k, e, hop, r);
    RecordedAccounts(c, w, k, e, hop, r);
    assert w.Log(k.tp) <= Recorded(c, w, k, e, hop, r).Log(k.tp);
  }

  /** The broker's books after a step. */
  lemma BooksKept(g: Guard, c: Config, w: World, k: Key, e: Event, hop: HopChoice)
    requires ConfigOk(c) && WorldOk(g, c, w) && CanAct(c, w, k, e, hop) && GuardedAt(g, c, w, k, e)
    ensures var w1, r := BrokerAfter(c, w, k, e, hop), StepAt(c, w, k, e, hop);
            && Grows(w, w1) && FatesOk(c, w1) && CommitsOk(w1) && w1.lanes == w.lanes && w1.members == w.members
            && Gains(w.Accounted(k.tp), r) <= w1.Accounted(k.tp) && |w.Log(k.tp)| <= |w1.Log(k.tp)|
  {
    var r := StepAt(c, w, k, e, hop);
    var w0 := Recorded(c, w, k, e, hop, r);
    LaneStepKeeps(g, c, w, k, e, hop);
    BooksRecorded(g, c, w, k, e, hop);
    CommittedKeeps(c, w0, k.tp, r.commit);
    GrowsOn(w, w0, BrokerAfter(c, w, k, e, hop));
  }

  lemma GrowsOn(w: World, w0: World, w1: World)
    requires Grows(w, w0) && Grows(w0, w1)
    ensures Grows(w, w1)
  {
    forall tp ensures w.Log(tp) <= w1.Log(tp) { assert w.Log(tp) <= w0.Log(tp) <= w1.Log(tp); }
  }

  lemma BrokerKeeps(g: Guard, c: Config, w: World, k: Key, e: Event, hop: HopChoice)
    requires ConfigOk(c) && WorldOk(g, c, w) && CanAct(c, w, k, e, hop) && GuardedAt(g, c, w, k, e)
    ensures var w1, r := BrokerAfter(c, w, k, e, hop), StepAt(c, w, k, e, hop);
            && Grows(w, w1) && FatesOk(c, w1) && CommitsOk(w1) && w1.lanes == w.lanes && w1.members == w.members
            && Good(g, KindOf(c, k.tp.topic), w.members[k.member].running && !r.stop, w.members[k.member].abandoned,
                      w1.Init(k.tp), |w1.Log(k.tp)|, Dead(c, w1, k.tp), w1.Accounted(k.tp), After(r))
  {
    var r, w1 := StepAt(c, w, k, e, hop), BrokerAfter(c, w, k, e, hop);
    LaneStepKeeps(g, c, w, k, e, hop);
    BooksKept(g, c, w, k, e, hop);
    DeadGrows(c, w, w1, k.tp);
    GoodMonotone(g, KindOf(c, k.tp.topic), w.members[k.member].running && !r.stop, w.members[k.member].abandoned, w.Init(k.tp), |w.Log(k.tp)|,
             Dead(c, w, k.tp), Gains(w.Accounted(k.tp), r), |w1.Log(k.tp)|, Dead(c, w1, k.tp), w1.Accounted(k.tp), After(r));
  }

  /** The same broker with other members and lanes. */
  lemma SameBroker(c: Config, w: World, w': World)
    requires w' == w.(lanes := w'.lanes, members := w'.members)
    ensures forall tp :: w'.Log(tp) == w.Log(tp) && w'.Init(tp) == w.Init(tp) && w'.Accounted(tp) == w.Accounted(tp) && Dead(c, w', tp) == Dead(c, w, tp)
    ensures FatesOk(c, w) ==> FatesOk(c, w')
    ensures CommitsOk(w) ==> CommitsOk(w')
  {
    if FatesOk(c, w) {
      forall f | f in w.fates ensures FateOk(c, w', f) { assert FateOk(c, w, f); }
    }
  }

  /** Where the group starts is never changed. */
  lemma StartStays(c: Config, w: World, a: Act)
    requires Can(c, w, a)
    ensures Next(c, w, a).init == w.init
  {
    if a.At? { ActedIs(c, w, a.key, a.event, a.hop); }
  }

  /** The members' side of a step: the lane moves on, and a stop takes every lane of the member. */
  lemma ActedIs(c: Config, w: World, k: Key, e: Event, hop: HopChoice)
    requires CanAct(c, w, k, e, hop)
    ensures var r, w1, w' := StepAt(c, w, k, e, hop), BrokerAfter(c, w, k, e, hop), Acted(c, w, k, e, hop);
            && w' == w1.(lanes := w'.lanes, members := w'.members)
            && w'.members == (if r.stop then w.members[k.member := w.members[k.member].(running := false)] else w.members)
            && k in w'.lanes && w'.lanes[k] == After(r)
            && (forall q :: q in w'.lanes && q != k ==> q in w.lanes && w'.lanes[q] == if r.stop && q.member == k.member then Stopped(w.lanes[q]) else w.lanes[q])
  {
    BrokerMoves(c, w, k, e, hop);
    MovedIs(BrokerAfter(c, w, k, e, hop), k, StepAt(c, w, k, e, hop));
  }

  lemma BrokerMoves(c: Config, w: World, k: Key, e: Event, hop: HopChoice)
    requires CanAct(c, w, k, e, hop)
    ensures BrokerAfter(c, w, k, e, hop).lanes == w.lanes && BrokerAfter(c, w, k, e, hop).members == w.members
  {
  }

  lemma OthersKept(c: Config, w: World, q: Key, e: Event, hop: HopChoice, k: Key)
    requires CanAct(c, w, q, e, hop) && q != k
    ensures k in w.lanes ==> k in Acted(c, w, q, e, hop).lanes
  {
  }

  lemma MovedIs(w1: World, k: Key, r: Result)
    requires k.member in w1.members
    ensures var w' := Moved(w1, k, r);
            && w' == w1.(lanes := w'.lanes, members := w'.members)
            && w'.members == (if r.stop then w1.members[k.member := w1.members[k.member].(running := false)] else w1.members)
            && k in w'.lanes && w'.lanes[k] == After(r)
            && (forall q :: q in w'.lanes && q != k ==> q in w1.lanes && w'.lanes[q] == if r.stop && q.member == k.member then Stopped(w1.lanes[q]) else w1.lanes[q])
  {
  }

  lemma ActKeeps(g: Guard, c: Config, w: World, k: Key, e: Event, hop: HopChoice)
    requires ConfigOk(c) && WorldOk(g, c, w) && CanAct(c, w, k, e, hop) && GuardedAt(g, c, w, k, e)
    ensures WorldOk(g, c, Acted(c, w, k, e, hop))
  {
    BrokerKeeps(g, c, w, k, e, hop);
    ActedIs(c, w, k, e, hop);
    LanesKept(g, c, w, BrokerAfter(c, w, k, e, hop), Acted(c, w, k, e, hop), k, StepAt(c, w, k, e, hop));
  }

  lemma LanesKept(g: Guard, c: Config, w: World, w1: World, w': World, k: Key, r: Result)
    requires ConfigOk(c) && WorldOk(g, c, w) && k.member in w.members && k.tp.topic in c.routes
    requires Grows(w, w1) && FatesOk(c, w1) && CommitsOk(w1) && w1.lanes == w.lanes && w1.members == w.members
    requires Good(g, KindOf(c, k.tp.topic), w.members[k.member].running && !r.stop, w.members[k.member].abandoned,
                    w1.Init(k.tp), |w1.Log(k.tp)|, Dead(c, w1, k.tp), w1.Accounted(k.tp), After(r))
    requires w' == w1.(lanes := w'.lanes, members := w'.members)
    requires w'.members == if r.stop then w.members[k.member := w.members[k.member].(running := false)] else w.members
    requires k in w'.lanes && w'.lanes[k] == After(r)
    requires forall q :: q in w'.lanes && q != k ==> q in w.lanes && w'.lanes[q] == if r.stop && q.member == k.member then Stopped(w.lanes[q]) else w.lanes[q]
    ensures WorldOk(g, c, w')
  {
    BrokerOnly(c, w, w1, w', k.member, r.stop);
    forall q | q in w'.lanes ensures LaneFine(g, c, w', q) {
      if q != k {
        OtherLane(g, c, w, w1, w', q, k.member, r.stop);
      } else {
        SameBroker(c, w1, w');
      }
    }
  }

  lemma BrokerOnly(c: Config, w: World, w1: World, w': World, m: nat, stop: bool)
    requires StartsOk(w) && MembersOk(w) && m in w.members
    requires Grows(w, w1) && FatesOk(c, w1) && CommitsOk(w1)
    requires w' == w1.(lanes := w'.lanes, members := w'.members)
    requires w'.members == if stop then w.members[m := w.members[m].(running := false)] else w.members
    ensures StartsOk(w') && MembersOk(w') && FatesOk(c, w') && CommitsOk(w')
  {
    SameBroker(c, w1, w');
    forall tp ensures w'.Init(tp) <= |w'.Log(tp)| { assert w.Log(tp) <= w1.Log(tp); }
  }

  /** A lane the step did not touch, on a member it may have stopped. */
  lemma OtherLane(g: Guard, c: Config, w: World, w1: World, w': World, q: Key, m: nat, stop: bool)
    requires ConfigOk(c) && WorldOk(g, c, w) && Grows(w, w1) && w1.lanes == w.lanes && w1.members == w.members
    requires w' == w1.(lanes := w'.lanes, members := w'.members) && m in w.members
    requires w'.members == if stop then w.members[m := w.members[m].(running := false)] else w.members
    requires q in w.lanes && q in w'.lanes && w'.lanes[q] == if stop && q.member == m then Stopped(w.lanes[q]) else w.lanes[q]
    ensures LaneFine(g, c, w', q)
  {
    SameBroker(c, w1, w');
    LaneSurvives(g, c, w, w1, q);
    var member := w.members[q.member];
    if stop && q.member == m {
      GoodStops(g, KindOf(c, q.tp.topic), member.running, member.abandoned, w1.Init(q.tp), |w1.Log(q.tp)|, Dead(c, w1, q.tp), w1.Accounted(q.tp), w.lanes[q]);
    }
  }

  /** Another member came, or one left: its lanes do not see it. */
  lemma MembersSurvive(g: Guard, c: Config, w: World, w': World)
    requires WorldOk(g, c, w) && w' == w.(members := w'.members) && MembersOk(w')
    requires forall m :: m in w.members ==> m in w'.members && w'.members[m].running == w.members[m].running
    ensures WorldOk(g, c, w')
  {
    SameBroker(c, w, w');
    forall k | k in w'.lanes ensures LaneFine(g, c, w', k) {
      assert LaneFine(g, c, w, k);
      SameLane(g, c, w, w', k);
    }
  }

  lemma SameLane(g: Guard, c: Config, w: World, w': World, k: Key)
    requires k in w.lanes && LaneFine(g, c, w, k) && w' == w.(members := w'.members)
    requires k.member in w'.members && w'.members[k.member].running == w.members[k.member].running
    requires w'.members[k.member].abandoned ==> !w'.members[k.member].running
    ensures LaneFine(g, c, w', k)
  {
    SameBroker(c, w, w');
  }

  lemma LeaveSurvives(g: Guard, c: Config, w: World, m: nat)
    requires ConfigOk(c) && WorldOk(g, c, w) && Can(c, w, Leave(m))
    ensures WorldOk(g, c, Next(c, w, Leave(m)))
  {
    MembersSurvive(g, c, w, w.(members := w.members[m := Member(false, Busy(w, m), true)]));
  }

  lemma JoinSurvives(g: Guard, c: Config, w: World, m: nat)
    requires ConfigOk(c) && WorldOk(g, c, w) && Can(c, w, Act.Join(m))
    ensures WorldOk(g, c, Next(c, w, Act.Join(m)))
  {
    MembersSurvive(g, c, w, w.(members := w.members[m := Member(true, false, false)]));
  }

  lemma AppendSurvives(g: Guard, c: Config, w: World, tp: TP, rec: Rec)
    requires ConfigOk(c) && WorldOk(g, c, w)
    ensures WorldOk(g, c, Appended(w, tp, rec))
  {
    var w' := Appended(w, tp, rec);
    AppendGrows(w, tp, rec);
    FatesGrow(c, w, w');
    CommitsGrow(w, w');
    forall k | k in w'.lanes ensures LaneFine(g, c, w', k) {
      assert LaneFine(g, c, w, k);
      LaneSurvives(g, c, w, w', k);
    }
  }

  /** Every step of every member and of the broker keeps the world: sessions if it is clean, the order if it is in order. */
  lemma NextKeeps(g: Guard, c: Config, w: World, a: Act)
    requires ConfigOk(c) && WorldOk(g, c, w) && Can(c, w, a) && GuardedAct(g, c, w, a)
    ensures WorldOk(g, c, Next(c, w, a))
  {
    match a
    case Append(tp, rec) => AppendSurvives(g, c, w, tp, rec);
    case Join(m) => JoinSurvives(g, c, w, m);
    case At(k, e, hop) => ActKeeps(g, c, w, k, e, hop);
    case Stop(m) => StopSurvives(g, c, w, m);
    case Leave(m) => LeaveSurvives(g, c, w, m);
  }

  /** Where the sessions are kept, a clean act is one in order. */
  lemma CleanActInOrder(c: Config, w: World, a: Act)
    requires ConfigOk(c) && WorldOk(BySession, c, w) && Can(c, w, a) && GuardedAct(BySession, c, w, a)
    ensures GuardedAct(ByOrder, c, w, a)
  {
    if a.At? {
      var k := a.key;
      LaneAlways(BySession, c, w, k);
      CleanInOrder(KindOf(c, k.tp.topic), w.members[k.member].running, w.members[k.member].abandoned,
                   w.Init(k.tp), |w.Log(k.tp)|, Dead(c, w, k.tp), w.Accounted(k.tp), w.LaneOf(k), a.event);
    }
  }
}
