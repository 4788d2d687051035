/** Which messages of a run succeed, and which go down the ladder: what was decoded, and what the handler said of each. */
module Verdicts {
  import opened Basics
  import opened Lanes
  import opened LaneSafety
  import opened Order
  import opened World
  import opened WorldSafety
  import opened Prefix
  import opened Riders

  // ------------------------------------------------------- picking messages

  ghost predicate Rising(at: seq<nat>) { forall i, j :: 0 <= i < j < |at| ==> at[i] < at[j] }

  /** `r` is, place by place and in order, what of `s` is in `chosen` (or, for `!keep`, is not). */
  ghost predicate Picks(s: seq<nat>, chosen: set<nat>, keep: bool, r: seq<nat>, at: seq<nat>) {
    && |at| == |r| && Rising(at)
    && (forall i :: 0 <= i < |at| ==> at[i] < |s| && r[i] == s[at[i]])
    && (forall p :: 0 <= p < |s| ==> (p in at <==> (s[p] in chosen) == keep))
  }

  ghost predicate Picked(s: seq<nat>, chosen: set<nat>, keep: bool, r: seq<nat>) { exists at :: Picks(s, chosen, keep, r, at) }

  function Shifted(at: seq<nat>): (r: seq<nat>)
    ensures |r| == |at| && forall i :: 0 <= i < |at| ==> r[i] == at[i] + 1
  {
    seq(|at|, i requires 0 <= i < |at| => at[i] + 1)
  }

  lemma ShiftedMembers(at: seq<nat>, p: nat)
    ensures p + 1 in Shifted(at) <==> p in at
    ensures 0 !in Shifted(at)
  {
    if p in at {
      var i :| 0 <= i < |at| && at[i] == p;
      assert Shifted(at)[i] == p + 1;
    }
  }

  lemma {:induction false} SelectPicks(s: seq<nat>, chosen: set<nat>, keep: bool)
    ensures Picked(s, chosen, keep, Select(s, chosen, keep))
  {
    if s == [] {
      assert Picks(s, chosen, keep, [], []);
    } else {
      SelectPicks(s[1..], chosen, keep);
      var at :| Picks(s[1..], chosen, keep, Select(s[1..], chosen, keep), at);
      PicksMore(s, chosen, keep, Select(s[1..], chosen, keep), at);
    }
  }

  lemma PicksMore(s: seq<nat>, chosen: set<nat>, keep: bool, r: seq<nat>, at: seq<nat>)
    requires s != [] && Picks(s[1..], chosen, keep, r, at)
    ensures Picked(s, chosen, keep, (if (s[0] in chosen) == keep then [s[0]] else []) + r)
  {
    PlacesMove(s, chosen, keep, at);
    if (s[0] in chosen) == keep {
      PicksFirst(s, chosen, keep, r, at);
    } else {
      assert [] + r == r;
      PicksLater(s, chosen, keep, r, at);
    }
  }

  lemma PicksLater(s: seq<nat>, chosen: set<nat>, keep: bool, r: seq<nat>, at: seq<nat>)
    requires s != [] && Picks(s[1..], chosen, keep, r, at) && (s[0] in chosen) != keep && 0 !in Shifted(at)
    requires forall p :: 0 < p < |s| ==> (p in Shifted(at) <==> (s[p] in chosen) == keep)
    ensures Picks(s, chosen, keep, r, Shifted(at))
  {
    var places := Shifted(at);
    forall i | 0 <= i < |places| ensures places[i] < |s| && r[i] == s[places[i]] { assert places[i] == at[i] + 1; }
  }

  lemma PicksFirst(s: seq<nat>, chosen: set<nat>, keep: bool, r: seq<nat>, at: seq<nat>)
    requires s != [] && Picks(s[1..], chosen, keep, r, at) && (s[0] in chosen) == keep
    requires forall p :: 0 < p < |s| ==> (p in Shifted(at) <==> (s[p] in chosen) == keep)
    ensures Picks(s, chosen, keep, [s[0]] + r, [0] + Shifted(at))
  {
    FirstPlace(at);
    FirstHolds(s, r, at);
    FirstMembers(s, chosen, keep, at);
  }

  lemma FirstHolds(s: seq<nat>, r: seq<nat>, at: seq<nat>)
    requires s != [] && |r| == |at| && forall i :: 0 <= i < |at| ==> at[i] < |s[1..]| && r[i] == s[1..][at[i]]
    ensures var places := [0] + Shifted(at);
            forall i :: 0 <= i < |places| ==> places[i] < |s| && ([s[0]] + r)[i] == s[places[i]]
  {
    var places := [0] + Shifted(at);
    forall i | 0 <= i < |places| ensures places[i] < |s| && ([s[0]] + r)[i] == s[places[i]] {
      if i > 0 { assert places[i] == at[i - 1] + 1; }
    }
  }

  lemma FirstMembers(s: seq<nat>, chosen: set<nat>, keep: bool, at: seq<nat>)
    requires s != [] && (s[0] in chosen) == keep
    requires forall p :: 0 < p < |s| ==> (p in Shifted(at) <==> (s[p] in chosen) == keep)
    ensures forall p :: 0 <= p < |s| ==> (p in [0] + Shifted(at) <==> (s[p] in chosen) == keep)
  {
    FirstPlace(at);
  }

  lemma PlacesMove(s: seq<nat>, chosen: set<nat>, keep: bool, at: seq<nat>)
    requires s != [] && forall p :: 0 <= p < |s[1..]| ==> (p in at <==> (s[1..][p] in chosen) == keep)
    ensures forall p :: 0 < p < |s| ==> (p in Shifted(at) <==> (s[p] in chosen) == keep)
    ensures 0 !in Shifted(at)
  {
    ShiftedMembers(at, 0);
    forall p | 0 < p < |s| ensures p in Shifted(at) <==> (s[p] in chosen) == keep {
      ShiftedMembers(at, p - 1);
      assert s[p] == s[1..][p - 1];
    }
  }

  lemma FirstPlace(at: seq<nat>)
    ensures forall p :: p in [0] + Shifted(at) <==> p == 0 || p in Shifted(at)
    ensures Rising(at) ==> Rising([0] + Shifted(at))
  {
  }

  // ---------------------------------------------------------- what decoding says

  /** What a run does next with what it still has: the messages to forward first, those to hand over, those to forward. */
  function Stages(l: Lane, id: nat): Option<Stage> { if id in l.tasks && l.tasks[id].Run? then Some(l.tasks[id].stage) else None }

  /** What did not decode goes down its ladder, the rest to the handler, both in order. */
  lemma DecodeExactly(k: Kind, running: bool, high: nat, l: Lane, id: nat, bad: set<nat>)
    requires Enabled(k, running, high, l, Decode(id, bad)) && l.tasks[id].items != [] && RunsHaveItems(l)
    ensures var r, offs := Step(k, running, false, high, l, Decode(id, bad)), Offs(l.tasks[id].items);
            && r.settles == [] && r.commit.None?
            && match Stages(r.lane, id)
               case Some(Salvaging(failed, decoded)) => failed != [] && Picked(offs, bad, true, failed) && Picked(offs, bad, false, decoded)
               case Some(Handling(decoded)) => (forall x :: x in offs ==> x !in bad) && Picked(offs, bad, false, decoded)
               case _ => false
  {
    var offs := Offs(l.tasks[id].items);
    SelectPicks(offs, bad, true);
    SelectPicks(offs, bad, false);
    DecodeStage(l, id, bad);
  }

  lemma DecodeStage(l: Lane, id: nat, bad: set<nat>)
    requires Has(l, id) && l.tasks[id].Run? && l.tasks[id].items != []
    ensures var offs := Offs(l.tasks[id].items);
            var failed, decoded := Select(offs, bad, true), Select(offs, bad, false);
            Stages(Decoded(false, l, id, l.tasks[id], bad), id) == Some(if failed == [] then Handling(decoded) else Salvaging(failed, decoded))
  {
    var offs := Offs(l.tasks[id].items);
    assert offs[0] in Select(offs, bad, true) || offs[0] in Select(offs, bad, false);
  }

  // ------------------------------------------------------- what the handler says

  /** The run has handed these messages to its handler. */
  predicate Given(l: Lane, id: nat, x: nat) { id in l.tasks && l.tasks[id].Run? && l.tasks[id].stage.Handling? && x in l.tasks[id].stage.decoded }

  /** By its outcome the handler did its work for the message. */
  predicate Says(out: Outcome, decoded: seq<nat>, x: nat) {
    match out
    case Resolved => x in decoded
    case Listed(names) => x in decoded && x !in names && (forall n :: n in names ==> n in decoded)
    case _ => false
  }

  /** A verdict settles exactly the messages the handler did its work for; once shutdown gave up on it, only one that resolved counts. */
  lemma VerdictExactly(k: Kind, running: bool, abandoned: bool, high: nat, l: Lane, id: nat, out: Outcome, x: nat)
    requires Enabled(k, running, high, l, Handler(id, out)) && RunsHaveItems(l)
    ensures x in Step(k, running, abandoned, high, l, Handler(id, out)).settles <==>
            Says(out, l.tasks[id].stage.decoded, x) && (abandoned ==> out.Resolved?)
  {
  }

  /** What is left to forward: everything after a throw, exactly the named messages, in order, after a list, nothing otherwise. */
  lemma LeftExactly(k: Kind, running: bool, high: nat, l: Lane, id: nat, out: Outcome)
    requires Enabled(k, running, high, l, Handler(id, out)) && RunsHaveItems(l) && StageOk(l.tasks[id])
    ensures var r, decoded := Step(k, running, false, high, l, Handler(id, out)), l.tasks[id].stage.decoded;
            match out
            case Resolved => Stages(r.lane, id) == Some(Committing) && !r.stop
            case Threw => Stages(r.lane, id) == Some(Forwarding(decoded)) && !r.stop
            case Listed(names) =>
              if forall n :: n in names ==> n in decoded then
                !r.stop && match Stages(r.lane, id)
                           case Some(Forwarding(left)) => left != [] && Picked(decoded, names, true, left)
                           case Some(Committing) => names == {}
                           case _ => false
              else r.stop && Stages(r.lane, id).None?
            case Aborting => r.stop && Stages(r.lane, id).None?
            case Released => !r.stop && Stages(r.lane, id).None?
  {
    var decoded := l.tasks[id].stage.decoded;
    if out.Listed? {
      SelectPicks(decoded, out.names, true);
      forall n | n in out.names && n in decoded ensures n in Select(decoded, out.names, true) {}
    }
  }

  // --------------------------------------------------------- over whole runs

  /** This act is a handler's verdict by which it did its work for the message. */
  ghost predicate Blesses(w: World, a: Act, tp: TP, x: nat) {
    && a.At? && a.key.tp == tp && a.event.Handler? && a.key.member in w.members && Given(w.LaneOf(a.key), a.event.id, x)
    && Says(a.event.outcome, w.LaneOf(a.key).tasks[a.event.id].stage.decoded, x)
    && (w.members[a.key.member].abandoned ==> a.event.outcome.Resolved?)
  }

  ghost predicate Blessed(c: Config, w: World, run: seq<Act>, tp: TP, x: nat)
    requires Runs(c, w, run)
    decreases |run|
  {
    run != [] && (Blesses(w, run[0], tp, x) || Blessed(c, Next(c, w, run[0]), run[1..], tp, x))
  }

  /** A success is recorded by an act if and only if it is such a verdict. */
  lemma BlessedExactly(c: Config, w: World, a: Act, tp: TP, x: nat)
    requires Can(c, w, a)
    ensures Processed(tp, x) in Next(c, w, a).fates <==> Processed(tp, x) in w.fates || Blesses(w, a, tp, x)
  {
    if a.At? { ActBlesses(c, w, a.key, a.event, a.hop, tp, x); }
  }

  lemma ActBlesses(c: Config, w: World, k: Key, e: Event, hop: HopChoice, tp: TP, x: nat)
    requires CanAct(c, w, k, e, hop)
    ensures Processed(tp, x) in Acted(c, w, k, e, hop).fates <==> Processed(tp, x) in w.fates || Blesses(w, At(k, e, hop), tp, x)
  {
    var r := StepAt(c, w, k, e, hop);
    ActedIs(c, w, k, e, hop);
    FatesRecordedAre(c, w, k, e, hop, tp, x);
    var kind, m, high, l := KindOf(c, k.tp.topic), w.members[k.member], |w.Log(k.tp)|, w.LaneOf(k);
    if e.Handler? {
      VerdictExactly(kind, m.running, m.abandoned, high, l, e.id, e.outcome, x);
    } else if !e.HopAcked? {
      OthersSettleNothing(kind, m.running, m.abandoned, high, l, e);
    }
  }

  lemma OthersSettleNothing(k: Kind, running: bool, abandoned: bool, high: nat, l: Lane, e: Event)
    requires Enabled(k, running, high, l, e) && RunsHaveItems(l) && !e.Handler? && !e.HopAcked?
    ensures Step(k, running, abandoned, high, l, e).settles == []
  {
  }

  lemma FatesRecordedAre(c: Config, w: World, k: Key, e: Event, hop: HopChoice, tp: TP, x: nat)
    requires CanAct(c, w, k, e, hop)
    ensures Processed(tp, x) in BrokerAfter(c, w, k, e, hop).fates <==>
            Processed(tp, x) in w.fates || (tp == k.tp && !e.HopAcked? && x in StepAt(c, w, k, e, hop).settles)
  {
  }

  /** Over any run: a message counts as processed if and only if some handler it was given to did its work for it. */
  lemma {:induction false} ProcessedExactly(c: Config, w: World, run: seq<Act>, tp: TP, x: nat)
    requires Runs(c, w, run)
    ensures Processed(tp, x) in Final(c, w, run).fates <==> Processed(tp, x) in w.fates || Blessed(c, w, run, tp, x)
    decreases |run|
  {
    if run != [] {
      BlessedExactly(c, w, run[0], tp, x);
      ProcessedExactly(c, Next(c, w, run[0]), run[1..], tp, x);
    }
  }

  // ------------------------------------------------------ what goes down the ladder

  /** The run has the message among those it is to forward. */
  predicate Sends(l: Lane, id: nat, x: nat) {
    id in l.tasks && l.tasks[id].Run? &&
    match l.tasks[id].stage
    case Salvaging(bad, _) => x in bad
    case Forwarding(left) => x in left
    case _ => false
  }

  /** This step finds that the message failed: it belongs to nobody, did not decode, or the handler threw or named it. */
  predicate Fails(l: Lane, e: Event, x: nat) {
    match e
    case Deliver(how) => how.Unroutable? && l.next == Some(x)
    case Decode(id, bad) => id in l.tasks && l.tasks[id].Run? && x in Offs(l.tasks[id].items) && x in bad
    case Handler(id, out) => Given(l, id, x) && (out.Threw? || (out.Listed? && x in out.names))
    case _ => false
  }

  /** A message is only ever to be forwarded because a step found that it failed. */
  lemma SendsOnlyFailed(k: Kind, running: bool, abandoned: bool, high: nat, l: Lane, e: Event, id: nat, x: nat)
    requires Enabled(k, running, high, l, e) && RunsHaveItems(l) && Sends(After(Step(k, running, abandoned, high, l, e)), id, x)
    ensures Sends(l, id, x) || Fails(l, e, x)
  {
    var r := Step(k, running, abandoned, high, l, e);
    StopSends(r.lane, id, x);
    if e.Decode? || e.HopAcked? || e.HopFailed? || e.Handler? || e.CommitDone? {
      RunSends(k, running, abandoned, high, l, e, id, x);
    } else {
      WaitSends(k, running, abandoned, high, l, e, id, x);
    }
  }

  lemma StopSends(l: Lane, id: nat, x: nat)
    ensures Sends(Stopped(l), id, x) <==> Sends(l, id, x)
  {
  }

  lemma RunSends(k: Kind, running: bool, abandoned: bool, high: nat, l: Lane, e: Event, id: nat, x: nat)
    requires Enabled(k, running, high, l, e) && RunsHaveItems(l) && Sends(Step(k, running, abandoned, high, l, e).lane, id, x)
    requires e.Decode? || e.HopAcked? || e.HopFailed? || e.Handler? || e.CommitDone?
    ensures Sends(l, id, x) || Fails(l, e, x)
  {
    if e.HopAcked? && id == e.id {
      HopSends(abandoned, l, id, x);
    } else if e.Handler? {
      VerdictSends(abandoned, l, e, id, x);
    }
  }

  lemma VerdictSends(abandoned: bool, l: Lane, e: Event, id: nat, x: nat)
    requires e.Handler? && Has(l, e.id) && l.tasks[e.id].Run? && l.tasks[e.id].stage.Handling? && l.tasks[e.id].items != []
    requires Sends(Handled(abandoned, l, e.id, e.outcome).lane, id, x)
    ensures Sends(l, id, x) || Fails(l, e, x)
  {
    if id == e.id { MyVerdictSends(abandoned, l, e, x); } else { OtherVerdictSends(abandoned, l, e, id); }
  }

  lemma OtherVerdictSends(abandoned: bool, l: Lane, e: Event, id: nat)
    requires e.Handler? && Has(l, e.id) && l.tasks[e.id].Run? && l.tasks[e.id].stage.Handling? && l.tasks[e.id].items != []
    requires id != e.id
    ensures var t := Handled(abandoned, l, e.id, e.outcome).lane.tasks; id in t ==> id in l.tasks && t[id] == l.tasks[id]
  {
  }

  lemma MyVerdictSends(abandoned: bool, l: Lane, e: Event, x: nat)
    requires e.Handler? && Has(l, e.id) && l.tasks[e.id].Run? && l.tasks[e.id].stage.Handling? && l.tasks[e.id].items != []
    requires Sends(Handled(abandoned, l, e.id, e.outcome).lane, e.id, x)
    ensures Fails(l, e, x)
  {
    VerdictStage(abandoned, l, e);
  }

  /** Where a verdict leaves its run, if not at its end. */
  lemma VerdictStage(abandoned: bool, l: Lane, e: Event)
    requires e.Handler? && Has(l, e.id) && l.tasks[e.id].Run? && l.tasks[e.id].stage.Handling? && l.tasks[e.id].items != []
    ensures var decoded := l.tasks[e.id].stage.decoded;
            match Stages(Handled(abandoned, l, e.id, e.outcome).lane, e.id)
            case Some(Forwarding(left)) =>
              (e.outcome.Threw? && left == decoded) || (e.outcome.Listed? && left == Select(decoded, e.outcome.names, true))
            case Some(stage) => stage.Committing?
            case None => true
  {
  }

  lemma HopSends(abandoned: bool, l: Lane, id: nat, x: nat)
    requires CanHop(l, id) && l.tasks[id].items != [] && Sends(Acked(abandoned, l, id).lane, id, x)
    ensures Sends(l, id, x)
  {
  }

  lemma WaitSends(k: Kind, running: bool, abandoned: bool, high: nat, l: Lane, e: Event, id: nat, x: nat)
    requires Enabled(k, running, high, l, e) && RunsHaveItems(l) && Sends(Step(k, running, abandoned, high, l, e).lane, id, x)
    requires !e.Decode? && !e.HopAcked? && !e.HopFailed? && !e.Handler? && !e.CommitDone?
    ensures Sends(l, id, x) || Fails(l, e, x)
  {
  }

  /** Somebody is to forward the message, or a copy of it was made. */
  ghost predicate OnItsWay(w: World, tp: TP, x: nat) {
    || (exists m: nat, id: nat :: Sends(w.LaneOf(Key(m, tp)), id, x))
    || (exists to, toOff :: Copied(tp, x, to, toOff) in w.fates)
  }

  ghost predicate Condemns(w: World, a: Act, tp: TP, x: nat) { a.At? && a.key.tp == tp && Fails(w.LaneOf(a.key), a.event, x) }

  ghost predicate Condemned(c: Config, w: World, run: seq<Act>, tp: TP, x: nat)
    requires Runs(c, w, run)
    decreases |run|
  {
    run != [] && (Condemns(w, run[0], tp, x) || Condemned(c, Next(c, w, run[0]), run[1..], tp, x))
  }

  lemma ActSends(c: Config, w: World, k: Key, e: Event, hop: HopChoice, tp: TP, x: nat, m: nat, id: nat)
    requires CanAct(c, w, k, e, hop) && Sends(Acted(c, w, k, e, hop).LaneOf(Key(m, tp)), id, x)
    ensures Sends(w.LaneOf(Key(m, tp)), id, x) || (tp == k.tp && Fails(w.LaneOf(k), e, x))
  {
    var q := Key(m, tp);
    ActedIs(c, w, k, e, hop);
    if q == k {
      SendsOnlyFailed(KindOf(c, k.tp.topic), w.members[k.member].running, w.members[k.member].abandoned, |w.Log(k.tp)|, w.LaneOf(k), e, id, x);
    } else {
      StopSends(w.LaneOf(q), id, x);
    }
  }

  /** The copy a hop makes is of the message its run has next. */
  lemma ActCopies(c: Config, w: World, k: Key, e: Event, hop: HopChoice, tp: TP, x: nat, to: TP, toOff: nat)
    requires CanAct(c, w, k, e, hop) && Copied(tp, x, to, toOff) in Acted(c, w, k, e, hop).fates
    ensures Copied(tp, x, to, toOff) in w.fates || (tp == k.tp && e.HopAcked? && Sends(w.LaneOf(k), e.id, x))
  {
    ActedIs(c, w, k, e, hop);
    CopiesRecordedAre(c, w, k, e, hop, tp, x, to, toOff);
  }

  lemma CopiesRecordedAre(c: Config, w: World, k: Key, e: Event, hop: HopChoice, tp: TP, x: nat, to: TP, toOff: nat)
    requires CanAct(c, w, k, e, hop) && Copied(tp, x, to, toOff) in BrokerAfter(c, w, k, e, hop).fates
    ensures Copied(tp, x, to, toOff) in w.fates || (tp == k.tp && e.HopAcked? && x == Forwarded(w, k, e))
  {
  }

  lemma OnlyFailedOnItsWay(c: Config, w: World, a: Act, tp: TP, x: nat)
    requires Can(c, w, a) && OnItsWay(Next(c, w, a), tp, x)
    ensures OnItsWay(w, tp, x) || Condemns(w, a, tp, x)
  {
    if a.At? {
      ActOnItsWay(c, w, a.key, a.event, a.hop, tp, x);
    } else if m: nat, id: nat :| Sends(Next(c, w, a).LaneOf(Key(m, tp)), id, x) {
      StopSends(w.LaneOf(Key(m, tp)), id, x);
    }
  }

  lemma ActOnItsWay(c: Config, w: World, k: Key, e: Event, hop: HopChoice, tp: TP, x: nat)
    requires CanAct(c, w, k, e, hop) && OnItsWay(Acted(c, w, k, e, hop), tp, x)
    ensures OnItsWay(w, tp, x) || (k.tp == tp && Fails(w.LaneOf(k), e, x))
  {
    var w' := Acted(c, w, k, e, hop);
    if m: nat, id: nat :| Sends(w'.LaneOf(Key(m, tp)), id, x) {
      ActSends(c, w, k, e, hop, tp, x, m, id);
    } else {
      var to, toOff :| Copied(tp, x, to, toOff) in w'.fates;
      ActCopies(c, w, k, e, hop, tp, x, to, toOff);
      if Copied(tp, x, to, toOff) !in w.fates { assert Sends(w.LaneOf(Key(k.member, tp)), e.id, x); }
    }
  }

  /** Over any run: a message is copied only if it belonged to nobody, did not decode, or its handler threw or named it. */
  lemma {:induction false} CopiedOnlyFailed(c: Config, w: World, run: seq<Act>, tp: TP, x: nat)
    requires Runs(c, w, run) && OnItsWay(Final(c, w, run), tp, x)
    ensures OnItsWay(w, tp, x) || Condemned(c, w, run, tp, x)
    decreases |run|
  {
    if run != [] {
      CopiedOnlyFailed(c, Next(c, w, run[0]), run[1..], tp, x);
      if OnItsWay(Next(c, w, run[0]), tp, x) { OnlyFailedOnItsWay(c, w, run[0], tp, x); }
    }
  }
}
