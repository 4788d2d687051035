/**
 * Messages whose offset a transaction committed before their handler was
 * done. Until their activation says what became of them they ride on it, and
 * if it ends without saying they are lost: committed, and without an outcome.
 */
module Riders {
  import opened Basics
  import opened Lanes
  import opened LaneSafety
  import opened LaneSteps
  import opened Order
  import opened World
  import opened WorldSafety
  import opened Prefix

  predicate OpenIn(l: Lane, run: nat, off: nat) { run in l.tasks && l.tasks[run].Run? && off in Open(l.tasks[run]) }

  /** The activation that has to say what became of the message is alive and still has it. */
  predicate Rides(w: World, t: Taken) { OpenIn(w.LaneOf(Key(t.member, t.at)), t.run, t.off) }

  ghost predicate TakenOk(w: World) { forall t :: t in w.taken ==> HasOutcome(w, t.at, t.off) || Rides(w, t) }

  /** The activation a step is of. */
  predicate OfActivation(e: Event, run: nat) {
    match e
    case Decode(id, _) => id == run
    case HopAcked(id) => id == run
    case HopFailed(id) => id == run
    case Handler(id, _) => id == run
    case CommitDone(id, _) => id == run
    case _ => false
  }

  /** The handler names a message it was not given. */
  predicate Disowned(l: Lane, id: nat, names: set<nat>) {
    Has(l, id) && l.tasks[id].Run? && l.tasks[id].stage.Handling? && Foreign(names, l.tasks[id].stage.decoded)
  }

  /** The activation ends here, and gives up the messages it still has. */
  predicate Drops(abandoned: bool, l: Lane, e: Event) {
    match e
    case Decode(id, bad) => abandoned
    case HopFailed(id) => true
    case Handler(id, out) =>
      if abandoned then !out.Resolved?
      else out.Aborting? || out.Released? || (out.Listed? && Disowned(l, id, out.names))
    case _ => false
  }

  /**
   * A transaction commits while what it takes along has an outcome or is still
   * in the hands of the activation that began it; and that activation does not
   * give up, from then on, a message that has none.
   */
  ghost predicate SeenThrough(w: World, k: Key, e: Event)
    requires k.member in w.members
  {
    var l := w.LaneOf(k);
    match e
    case TransactionCommit(id) =>
      id in l.tasks && l.tasks[id].Transaction? ==>
        forall x :: x in l.tasks[id].offs ==> HasOutcome(w, k.tp, x) || OpenIn(l, l.tasks[id].run, x)
    case _ => Drops(w.members[k.member].abandoned, l, e) ==> !HasRider(w, k, e)
  }

  /** A message without an outcome that a transaction took along rides on the activation of the step. */
  ghost predicate HasRider(w: World, k: Key, e: Event) {
    exists t :: t in w.taken && t.member == k.member && t.at == k.tp && OfActivation(e, t.run) && Rides(w, t) && !HasOutcome(w, t.at, t.off)
  }

  ghost predicate SeenThroughAct(w: World, a: Act) { a.At? && a.key.member in w.members ==> SeenThrough(w, a.key, a.event) }

  ghost predicate SeenThroughRun(c: Config, w: World, run: seq<Act>)
    requires Runs(c, w, run)
    decreases |run|
  {
    run != [] ==> SeenThroughAct(w, run[0]) && SeenThroughRun(c, Next(c, w, run[0]), run[1..])
  }

  // -------------------------------------------- what becomes of an open message

  lemma WaitsLeave(k: Kind, running: bool, abandoned: bool, high: nat, l: Lane, e: Event, run: nat)
    requires Enabled(k, running, high, l, e) && RunsHaveItems(l)
    requires e.Wake? || e.Grant? || e.ReEnter? || e.Drop? || e.Resume? || e.JoinWake?
    requires run in l.tasks && l.tasks[run].Run?
    ensures var l' := Step(k, running, abandoned, high, l, e).lane; run in l'.tasks && l'.tasks[run] == l.tasks[run]
  {
    assert e.id != run;
  }

  lemma OtherRunsLeave(k: Kind, running: bool, abandoned: bool, high: nat, l: Lane, e: Event, run: nat)
    requires Enabled(k, running, high, l, e) && RunsHaveItems(l) && !OfActivation(e, run)
    requires e.Decode? || e.HopAcked? || e.HopFailed? || e.Handler? || e.CommitDone?
    requires run in l.tasks && l.tasks[run].Run?
    ensures var l' := Step(k, running, abandoned, high, l, e).lane; run in l'.tasks && l'.tasks[run] == l.tasks[run]
  {
    assert e.id != run;
  }

  /** No other step sees the activation. */
  lemma OthersLeave(k: Kind, running: bool, abandoned: bool, high: nat, l: Lane, e: Event, run: nat)
    requires Enabled(k, running, high, l, e) && RunsHaveItems(l) && !OfActivation(e, run)
    requires run in l.tasks && l.tasks[run].Run? && run < l.nextId
    ensures var l' := Step(k, running, abandoned, high, l, e).lane; run in l'.tasks && l'.tasks[run] == l.tasks[run]
  {
    if e.Wake? || e.Grant? || e.ReEnter? || e.Drop? || e.Resume? || e.JoinWake? {
      WaitsLeave(k, running, abandoned, high, l, e, run);
    } else if e.Decode? || e.HopAcked? || e.HopFailed? || e.Handler? || e.CommitDone? {
      OtherRunsLeave(k, running, abandoned, high, l, e, run);
    }
  }

  lemma StopLeaves(l: Lane, run: nat, off: nat)
    ensures OpenIn(Stopped(l), run, off) <==> OpenIn(l, run, off)
  {
  }

  lemma DecodeFate(abandoned: bool, l: Lane, id: nat, bad: set<nat>, off: nat)
    requires OpenIn(l, id, off) && l.tasks[id].stage.Decoding? && l.tasks[id].items != []
    ensures OpenIn(Decoded(abandoned, l, id, l.tasks[id], bad), id, off) <==> !abandoned
  {
    var t := l.tasks[id];
    assert off in Offs(t.items);
    var failed, decoded := Select(Offs(t.items), bad, true), Select(Offs(t.items), bad, false);
    assert off in failed || off in decoded;
  }

  lemma AckFate(abandoned: bool, l: Lane, id: nat, off: nat)
    requires OpenIn(l, id, off) && CanHop(l, id) && l.tasks[id].items != []
    ensures off == Hopping(l, id) || OpenIn(Acked(abandoned, l, id).lane, id, off)
  {
    var s := l.tasks[id].stage;
    if s.Salvaging? {
      assert s.bad == [s.bad[0]] + s.bad[1..];
    } else {
      assert s.left == [s.left[0]] + s.left[1..];
    }
  }

  lemma VerdictFate(k: Kind, running: bool, abandoned: bool, high: nat, l: Lane, id: nat, out: Outcome, off: nat)
    requires OpenIn(l, id, off) && Enabled(k, running, high, l, Handler(id, out))
    ensures var r := Handled(abandoned, l, id, out);
            if Drops(abandoned, l, Handler(id, out)) then r.settles == [] && !OpenIn(r.lane, id, off)
            else off in r.settles || OpenIn(r.lane, id, off)
  {
  }

  /** An open message is settled, stays open, or its activation gives it up. */
  lemma OpenFate(k: Kind, running: bool, abandoned: bool, high: nat, l: Lane, e: Event, run: nat, off: nat)
    requires Enabled(k, running, high, l, e) && RunsHaveItems(l) && OpenIn(l, run, off) && run < l.nextId
    ensures var r := Step(k, running, abandoned, high, l, e);
            if OfActivation(e, run) && Drops(abandoned, l, e) then r.settles == [] && !OpenIn(After(r), run, off)
            else off in r.settles || OpenIn(After(r), run, off)
  {
    var r := Step(k, running, abandoned, high, l, e);
    StopLeaves(r.lane, run, off);
    if !OfActivation(e, run) {
      OthersLeave(k, running, abandoned, high, l, e, run);
    } else {
      match e
      case Decode(id, bad) => DecodeFate(abandoned, l, id, bad, off);
      case HopAcked(id) => AckFate(abandoned, l, id, off);
      case Handler(id, out) => VerdictFate(k, running, abandoned, high, l, id, out, off);
      case HopFailed(id) =>
      case _ =>
    }
  }

  // ------------------------------------------------------- in the whole world

  /** The fates a step adds. */
  lemma FatesAfter(c: Config, w: World, k: Key, e: Event, hop: HopChoice)
    requires CanAct(c, w, k, e, hop)
    ensures var w1, r := BrokerAfter(c, w, k, e, hop), StepAt(c, w, k, e, hop);
            && w.fates <= w1.fates && w1.lanes == w.lanes
            && w1.taken == w.taken + (if e.HopAcked? then {} else TakenBy(w, k, e, r.takes))
            && (r.settles == [] && !e.HopAcked? ==> w1.fates == w.fates)
  {
    RecordedGrows(c, w, k, e, hop, StepAt(c, w, k, e, hop));
  }

  lemma OutcomesAfter(c: Config, w: World, k: Key, e: Event, hop: HopChoice)
    requires CanAct(c, w, k, e, hop)
    ensures forall x :: x in StepAt(c, w, k, e, hop).settles ==> HasOutcome(BrokerAfter(c, w, k, e, hop), k.tp, x)
  {
    var w1, r := BrokerAfter(c, w, k, e, hop), StepAt(c, w, k, e, hop);
    forall x | x in r.settles ensures HasOutcome(w1, k.tp, x) {
      SettledRecorded(c, w, k, e, hop, r, x);
    }
  }

  /** The same, with the members' side of the step. */
  lemma FatesActed(c: Config, w: World, k: Key, e: Event, hop: HopChoice)
    requires CanAct(c, w, k, e, hop)
    ensures var w', r := Acted(c, w, k, e, hop), StepAt(c, w, k, e, hop);
            && w.fates <= w'.fates && w.taken <= w'.taken
            && w'.taken == w.taken + (if e.HopAcked? then {} else TakenBy(w, k, e, r.takes))
            && (r.settles == [] && !e.HopAcked? ==> w'.fates == w.fates)
            && (forall x :: x in r.settles ==> HasOutcome(w', k.tp, x))
            && w'.LaneOf(k) == After(r)
  {
    FatesAfter(c, w, k, e, hop);
    OutcomesAfter(c, w, k, e, hop);
    ActedIs(c, w, k, e, hop);
  }

  /** A message on its activation, after a step anywhere. */
  lemma RiderAfter(g: Guard, c: Config, w: World, k: Key, e: Event, hop: HopChoice, t: Taken)
    requires ConfigOk(c) && WorldOk(g, c, w) && CanAct(c, w, k, e, hop) && Rides(w, t)
    ensures var w' := Acted(c, w, k, e, hop);
            if Key(t.member, t.at) == k && OfActivation(e, t.run) && Drops(w.members[k.member].abandoned, w.LaneOf(k), e)
            then StepAt(c, w, k, e, hop).settles == [] && !Rides(w', t)
            else Rides(w', t) || HasOutcome(w', t.at, t.off)
  {
    var q, w', r := Key(t.member, t.at), Acted(c, w, k, e, hop), StepAt(c, w, k, e, hop);
    FatesActed(c, w, k, e, hop);
    if q == k {
      LaneIsWeak(g, c, w, k);
      OpenFate(KindOf(c, k.tp.topic), w.members[k.member].running, w.members[k.member].abandoned, |w.Log(k.tp)|, w.LaneOf(k), e, t.run, t.off);
    } else {
      OtherRides(c, w, k, e, hop, q);
      StopLeaves(w.LaneOf(q), t.run, t.off);
    }
  }

  lemma OtherRides(c: Config, w: World, k: Key, e: Event, hop: HopChoice, q: Key)
    requires CanAct(c, w, k, e, hop) && q != k && q in w.lanes
    ensures var w' := Acted(c, w, k, e, hop);
            w'.LaneOf(q) == w.LaneOf(q) || w'.LaneOf(q) == Stopped(w.LaneOf(q))
  {
    ActedIs(c, w, k, e, hop);
    OthersKept(c, w, k, e, hop, q);
  }

  lemma OutcomeStays(c: Config, w: World, k: Key, e: Event, hop: HopChoice, tp: TP, x: nat)
    requires CanAct(c, w, k, e, hop) && HasOutcome(w, tp, x)
    ensures HasOutcome(Acted(c, w, k, e, hop), tp, x)
  {
    var f :| f in w.fates && f.at == tp && f.off == x;
    FatesActed(c, w, k, e, hop);
    assert f in Acted(c, w, k, e, hop).fates;
  }

  /** Seen through, a step leaves nothing that was taken along without an outcome or an activation. */
  lemma SeenThroughKeeps(g: Guard, c: Config, w: World, k: Key, e: Event, hop: HopChoice)
    requires ConfigOk(c) && WorldOk(g, c, w) && CanAct(c, w, k, e, hop) && TakenOk(w) && SeenThrough(w, k, e)
    ensures TakenOk(Next(c, w, At(k, e, hop)))
  {
    forall t | t in Acted(c, w, k, e, hop).taken
      ensures HasOutcome(Acted(c, w, k, e, hop), t.at, t.off) || Rides(Acted(c, w, k, e, hop), t)
    {
      OneSeenThrough(g, c, w, k, e, hop, t);
    }
  }

  lemma OneSeenThrough(g: Guard, c: Config, w: World, k: Key, e: Event, hop: HopChoice, t: Taken)
    requires ConfigOk(c) && WorldOk(g, c, w) && CanAct(c, w, k, e, hop) && TakenOk(w) && SeenThrough(w, k, e)
    requires t in Acted(c, w, k, e, hop).taken
    ensures HasOutcome(Acted(c, w, k, e, hop), t.at, t.off) || Rides(Acted(c, w, k, e, hop), t)
  {
    TakenBefore(c, w, k, e, hop, t);
    if HasOutcome(w, t.at, t.off) {
      OutcomeStays(c, w, k, e, hop, t.at, t.off);
    } else {
      RiderSeenThrough(g, c, w, k, e, hop, t);
    }
  }

  lemma RiderSeenThrough(g: Guard, c: Config, w: World, k: Key, e: Event, hop: HopChoice, t: Taken)
    requires ConfigOk(c) && WorldOk(g, c, w) && CanAct(c, w, k, e, hop) && SeenThrough(w, k, e)
    requires Rides(w, t) && !HasOutcome(w, t.at, t.off) && (t !in w.taken ==> e.TransactionCommit?)
    ensures var w' := Acted(c, w, k, e, hop); Rides(w', t) || HasOutcome(w', t.at, t.off)
  {
    RiderAfter(g, c, w, k, e, hop, t);
    if Drops(w.members[k.member].abandoned, w.LaneOf(k), e) && Key(t.member, t.at) == k && OfActivation(e, t.run) {
      assert HasRider(w, k, e);
      assert false;
    }
  }

  /** What is taken along after a step was before, or is by it. */
  lemma TakenBefore(c: Config, w: World, k: Key, e: Event, hop: HopChoice, t: Taken)
    requires CanAct(c, w, k, e, hop) && t in Acted(c, w, k, e, hop).taken && TakenOk(w) && SeenThrough(w, k, e)
    ensures HasOutcome(w, t.at, t.off) || Rides(w, t)
    ensures t !in w.taken ==> e.TransactionCommit?
  {
    FatesActed(c, w, k, e, hop);
    if t !in w.taken {
      assert t in TakenBy(w, k, e, StepAt(c, w, k, e, hop).takes);
      assert t.off in w.LaneOf(k).tasks[e.id].offs;
    }
  }

  /** Not seen through, a step leaves such a message. */
  lemma UnseenLoses(g: Guard, c: Config, w: World, k: Key, e: Event, hop: HopChoice)
    requires ConfigOk(c) && WorldOk(g, c, w) && CanAct(c, w, k, e, hop) && !SeenThrough(w, k, e)
    ensures !TakenOk(Acted(c, w, k, e, hop))
  {
    if e.TransactionCommit? {
      var x :| x in w.LaneOf(k).tasks[e.id].offs && !HasOutcome(w, k.tp, x) && !OpenIn(w.LaneOf(k), w.LaneOf(k).tasks[e.id].run, x);
      UnseenTaken(c, w, k, e, hop, x);
    } else {
      var t :| t in w.taken && t.member == k.member && t.at == k.tp && OfActivation(e, t.run) && Rides(w, t) && !HasOutcome(w, t.at, t.off);
      UnseenDropped(g, c, w, k, e, hop, t);
    }
  }

  lemma UnseenTaken(c: Config, w: World, k: Key, e: Event, hop: HopChoice, x: nat)
    requires CanAct(c, w, k, e, hop) && e.TransactionCommit? && x in w.LaneOf(k).tasks[e.id].offs
    requires !HasOutcome(w, k.tp, x) && !OpenIn(w.LaneOf(k), w.LaneOf(k).tasks[e.id].run, x)
    ensures !TakenOk(Acted(c, w, k, e, hop))
  {
    var w', r := Acted(c, w, k, e, hop), StepAt(c, w, k, e, hop);
    FatesActed(c, w, k, e, hop);
    var t := Taken(k.tp, x, k.member, w.LaneOf(k).tasks[e.id].run);
    assert t in TakenBy(w, k, e, r.takes);
    assert !Rides(w', t) && !HasOutcome(w', t.at, t.off);
  }

  lemma UnseenDropped(g: Guard, c: Config, w: World, k: Key, e: Event, hop: HopChoice, t: Taken)
    requires ConfigOk(c) && WorldOk(g, c, w) && CanAct(c, w, k, e, hop)
    requires Drops(w.members[k.member].abandoned, w.LaneOf(k), e) && OfActivation(e, t.run)
    requires t in w.taken && t.member == k.member && t.at == k.tp && Rides(w, t) && !HasOutcome(w, t.at, t.off)
    ensures !TakenOk(Acted(c, w, k, e, hop))
  {
    DroppedRider(g, c, w, k, e, hop, t);
    LostRider(w, Acted(c, w, k, e, hop), t);
  }

  /** A message that rode on the activation does not any more, and nothing else was said about it. */
  lemma DroppedRider(g: Guard, c: Config, w: World, k: Key, e: Event, hop: HopChoice, t: Taken)
    requires ConfigOk(c) && WorldOk(g, c, w) && CanAct(c, w, k, e, hop) && t.member == k.member && t.at == k.tp && Rides(w, t)
    requires Drops(w.members[k.member].abandoned, w.LaneOf(k), e) && OfActivation(e, t.run)
    ensures var w' := Acted(c, w, k, e, hop); !Rides(w', t) && w'.fates == w.fates && w.taken <= w'.taken
  {
    RiderAfter(g, c, w, k, e, hop, t);
    DropKeepsFates(c, w, k, e, hop);
  }

  lemma DropKeepsFates(c: Config, w: World, k: Key, e: Event, hop: HopChoice)
    requires CanAct(c, w, k, e, hop) && Drops(w.members[k.member].abandoned, w.LaneOf(k), e)
    requires StepAt(c, w, k, e, hop).settles == []
    ensures Acted(c, w, k, e, hop).fates == w.fates && w.taken <= Acted(c, w, k, e, hop).taken
  {
    FatesActed(c, w, k, e, hop);
  }

  lemma LostRider(w: World, w': World, t: Taken)
    requires t in w.taken && w.taken <= w'.taken && !Rides(w', t) && w'.fates == w.fates && !HasOutcome(w, t.at, t.off)
    ensures !TakenOk(w')
  {
    assert t in w'.taken;
  }

  /**
   * The exact condition for commits made through a transaction: a step leaves
   * every message a transaction took along with an outcome, or in hands that
   * still have to give it one, if and only if it is seen through.
   */
  lemma TransactionExactly(g: Guard, c: Config, w: World, k: Key, e: Event, hop: HopChoice)
    requires ConfigOk(c) && WorldOk(g, c, w) && CanAct(c, w, k, e, hop) && TakenOk(w)
    ensures TakenOk(Next(c, w, At(k, e, hop))) <==> SeenThrough(w, k, e)
  {
    if SeenThrough(w, k, e) {
      SeenThroughKeeps(g, c, w, k, e, hop);
    } else {
      UnseenLoses(g, c, w, k, e, hop);
      NextActs(c, w, k, e, hop);
    }
  }

  lemma NextActs(c: Config, w: World, k: Key, e: Event, hop: HopChoice)
    requires CanAct(c, w, k, e, hop)
    ensures Next(c, w, At(k, e, hop)) == Acted(c, w, k, e, hop)
  {
  }

  /** What is not a member's step on a partition takes nothing from any activation. */
  lemma OthersTakeNothing(c: Config, w: World, a: Act)
    requires TakenOk(w) && Can(c, w, a) && !a.At?
    ensures TakenOk(Next(c, w, a))
  {
    var w' := Next(c, w, a);
    assert w'.fates == w.fates && w'.taken == w.taken;
    forall t | t in w'.taken ensures HasOutcome(w', t.at, t.off) || Rides(w', t) {
      if Rides(w, t) {
        StopLeaves(w.LaneOf(Key(t.member, t.at)), t.run, t.off);
      }
    }
  }

  lemma {:induction false} TakenAlways(g: Guard, c: Config, w: World, run: seq<Act>)
    requires ConfigOk(c) && WorldOk(g, c, w) && TakenOk(w)
    requires Runs(c, w, run) && GuardedRun(g, c, w, run) && SeenThroughRun(c, w, run)
    ensures TakenOk(Final(c, w, run))
    decreases |run|
  {
    if run != [] {
      var a := run[0];
      if a.At? { SeenThroughKeeps(g, c, w, a.key, a.event, a.hop); } else { OthersTakeNothing(c, w, a); }
      NextKeeps(g, c, w, a);
      TakenAlways(g, c, Next(c, w, a), run[1..]);
    }
  }

  // ------------------------------------------------------ the settled prefix

  /** The message is with an activation whose transaction took its offset along. */
  ghost predicate Riding(w: World, tp: TP, off: nat) {
    exists t :: t in w.taken && t.at == tp && t.off == off && Rides(w, t)
  }

  ghost predicate PrefixSettled(w: World) {
    forall tp, off :: tp in w.committed && w.Init(tp) <= off < w.committed[tp] ==> HasOutcome(w, tp, off) || Riding(w, tp, off)
  }

  /**
   * Settled prefix: after any run of any number of members whose steps are
   * clean, or at least in order, and whose transactions are seen through,
   * every message below an offset the group committed has an outcome, or is
   * with the activation whose transaction took it along. Every copy that
   * counts as an outcome is on its log with the same bytes, one step further
   * down, and counts for one message only.
   */
  lemma SettledPrefix(g: Guard, c: Config, w: World, run: seq<Act>)
    requires ConfigOk(c) && Initial(w) && Runs(c, w, run) && GuardedRun(g, c, w, run) && SeenThroughRun(c, w, run)
    ensures PrefixSettled(Final(c, w, run)) && FatesOk(c, Final(c, w, run))
  {
    InitialOk(g, c, w);
    RunKeeps(g, c, w, run);
    TakenAlways(g, c, w, run);
    var w' := Final(c, w, run);
    BooksCovered(w');
    forall tp, off | tp in w'.committed && w'.Init(tp) <= off < w'.committed[tp]
      ensures HasOutcome(w', tp, off) || Riding(w', tp, off)
    {
      assert off in w'.Accounted(tp);
      if !HasOutcome(w', tp, off) {
        assert off !in w'.Settled(tp);
        var t :| t in w'.taken && t.at == tp && t.off == off;
        assert Rides(w', t);
      }
    }
  }

  /** No activation is running. */
  ghost predicate AllOver(w: World) {
    forall k, id :: k in w.lanes && id in w.lanes[k].tasks ==> !w.lanes[k].tasks[id].Run?
  }

  /** Once the activations are over, nothing rides: everything below the committed offsets has its outcome. */
  lemma SettledInTheEnd(g: Guard, c: Config, w: World, run: seq<Act>)
    requires ConfigOk(c) && Initial(w) && Runs(c, w, run) && GuardedRun(g, c, w, run) && SeenThroughRun(c, w, run)
    requires AllOver(Final(c, w, run))
    ensures var w' := Final(c, w, run); forall tp :: tp in w'.committed ==> SettledTo(w', tp, w'.committed[tp])
  {
    SettledPrefix(g, c, w, run);
    NobodyRides(Final(c, w, run));
  }

  lemma NobodyRides(w: World)
    requires AllOver(w)
    ensures forall tp, off :: !Riding(w, tp, off)
  {
    forall t: Taken ensures !Rides(w, t) {
      var k := Key(t.member, t.at);
      if k in w.lanes && t.run in w.lanes[k].tasks { assert !w.lanes[k].tasks[t.run].Run?; }
    }
  }
}
