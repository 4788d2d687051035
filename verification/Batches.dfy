/** What a batch run promises about its messages, and what becomes of them when it is given up. */
module Batches {
  import opened Basics
  import opened Lanes
  import opened LaneSafety
  import opened Order
  import opened World
  import opened WorldSafety
  import opened Prefix
  import opened Riders

  /** Counting one element of consecutive offsets. */
  lemma {:induction false} ConsecutiveOnce(items: seq<Item>, x: nat)
    requires forall i :: 0 <= i < |items| ==> items[i].off == items[0].off + i
    requires x in Offs(items)
    ensures multiset(Offs(items))[x] == 1
  {
    var offs := Offs(items);
    var at := x - items[0].off;
    assert offs == offs[..at] + [x] + offs[at + 1..];
    assert x !in offs[..at] && x !in offs[at + 1..];
  }

  ghost predicate RunAt(w: World, k: Key, id: nat) {
    k in w.lanes && id in w.lanes[k].tasks && w.lanes[k].tasks[id].Run?
  }

  /** A batch of at most `size` consecutive messages, of which `parts` have each exactly one. */
  ghost predicate Batched(size: nat, items: seq<Item>, parts: multiset<nat>) {
    && 1 <= |items| <= size && Consecutive(items)
    && forall x :: x in Offs(items) ==> parts[x] == 1
  }

  lemma BatchedParts(k: Kind, high: nat, items: seq<Item>, parts: multiset<nat>)
    requires k.Batch? && ItemsOk(k, high, items) && multiset(Offs(items)) == parts
    ensures Batched(k.size, items, parts)
  {
    forall x | x in Offs(items) ensures parts[x] == 1 { ConsecutiveOnce(items, x); }
  }

  /** The lane of a reachable state. */
  lemma ReachedLane(c: Config, w: World, run: seq<Act>, k: Key)
    requires ConfigOk(c) && Initial(w) && Runs(c, w, run) && GuardedRun(BySession, c, w, run) && k in Final(c, w, run).lanes
    ensures LaneFine(BySession, c, Final(c, w, run), k)
  {
    InitialOk(BySession, c, w);
    RunKeeps(BySession, c, w, run);
  }

  lemma RunTask(c: Config, w: World, k: Key, id: nat)
    requires k in w.lanes && LaneFine(BySession, c, w, k) && RunAt(w, k, id)
    ensures RunOk(KindOf(c, k.tp.topic), w.Init(k.tp), |w.Log(k.tp)|, w.Accounted(k.tp), w.lanes[k], id, w.lanes[k].tasks[id])
  {
    assert TaskOk(KindOf(c, k.tp.topic), w.Init(k.tp), |w.Log(k.tp)|, w.Accounted(k.tp), w.lanes[k], id, w.lanes[k].tasks[id]);
  }

  /** The batch `id` runs by itself, with each of its messages handled once, forwarded once, or open; when it commits, none is open. */
  ghost predicate BatchAlone(c: Config, w: World, k: Key, id: nat)
    requires RunAt(w, k, id) && k.tp.topic in c.routes && KindOf(c, k.tp.topic).Batch?
  {
    var t := w.lanes[k].tasks[id];
    && Batched(KindOf(c, k.tp.topic).size, t.items, multiset(t.handled) + multiset(t.forwarded) + multiset(Open(t)))
    && (t.stage.Committing? ==> Open(t) == []) && (t.origin == Flush <==> |t.items| < KindOf(c, k.tp.topic).size)
    && (forall o :: RunAt(w, k, o) ==> o == id)
    && k.member in w.members && (w.members[k.member].running ==> w.lanes[k].batch == [])
  }

  /**
   * In every state reached by clean steps: a batch holds consecutive messages,
   * at most `size` of them, and fewer only if it waited long enough or its
   * partition was revoked; a partition runs one batch at a time and collects
   * none meanwhile; and each message of a running batch was handled once,
   * forwarded once, or is open, so when its offset is being committed each
   * was handled once or forwarded once.
   */
  lemma BatchSafety(c: Config, w: World, run: seq<Act>, k: Key, id: nat)
    requires ConfigOk(c) && Initial(w) && Runs(c, w, run) && GuardedRun(BySession, c, w, run)
    requires RunAt(Final(c, w, run), k, id) && k.tp.topic in c.routes && KindOf(c, k.tp.topic).Batch?
    ensures BatchAlone(c, Final(c, w, run), k, id)
  {
    ReachedLane(c, w, run, k);
    AloneThere(c, Final(c, w, run), k, id);
  }

  lemma AloneThere(c: Config, w: World, k: Key, id: nat)
    requires RunAt(w, k, id) && LaneFine(BySession, c, w, k) && KindOf(c, k.tp.topic).Batch?
    ensures BatchAlone(c, w, k, id)
  {
    BatchedRun(c, w, k, id);
    RunsAlone(c, w, k, id);
  }

  lemma BatchedRun(c: Config, w: World, k: Key, id: nat)
    requires RunAt(w, k, id) && LaneFine(BySession, c, w, k) && KindOf(c, k.tp.topic).Batch?
    ensures var t := w.lanes[k].tasks[id];
            Batched(KindOf(c, k.tp.topic).size, t.items, multiset(t.handled) + multiset(t.forwarded) + multiset(Open(t)))
  {
    RunTask(c, w, k, id);
    var t := w.lanes[k].tasks[id];
    BatchedParts(KindOf(c, k.tp.topic), |w.Log(k.tp)|, t.items, multiset(t.handled) + multiset(t.forwarded) + multiset(Open(t)));
  }

  lemma RunsAlone(c: Config, w: World, k: Key, id: nat)
    requires RunAt(w, k, id) && LaneFine(BySession, c, w, k) && KindOf(c, k.tp.topic).Batch?
    ensures (forall o :: RunAt(w, k, o) ==> o == id) && k.member in w.members && (w.members[k.member].running ==> w.lanes[k].batch == [])
  {
    RunTask(c, w, k, id);
    forall o | RunAt(w, k, o) ensures o == id { RunTask(c, w, k, o); }
    if w.members[k.member].running { CollectsAlone(c, w, k); }
  }

  /** Nothing runs beside a batch that is being collected. */
  lemma CollectsAlone(c: Config, w: World, k: Key)
    requires k in w.lanes && LaneFine(BySession, c, w, k) && KindOf(c, k.tp.topic).Batch? && w.members[k.member].running
    ensures w.lanes[k].batch != [] ==> w.lanes[k].run.None?
  {
  }

  /**
   * What a transaction commits: the batch it was begun in, of which everything
   * its handler was not given went down its ladder. It is the only commit
   * that passes messages without an outcome, and only those its handler was
   * given.
   */
  lemma TransactionSafety(c: Config, w: World, run: seq<Act>, k: Key, id: nat)
    requires ConfigOk(c) && Initial(w) && Runs(c, w, run) && GuardedRun(BySession, c, w, run)
    requires var w' := Final(c, w, run);
             k in w'.lanes && id in w'.lanes[k].tasks && w'.lanes[k].tasks[id].Transaction? && k.tp.topic in c.routes && KindOf(c, k.tp.topic).Batch?
    ensures var w' := Final(c, w, run);
            var t := w'.lanes[k].tasks[id];
            && Batched(KindOf(c, k.tp.topic).size, t.items, multiset(t.salvaged) + multiset(t.offs))
            && Covered(w'.Init(k.tp), w'.Accounted(k.tp), Last(t.items) + 1, t.offs)
  {
    var w' := Final(c, w, run);
    ReachedLane(c, w, run, k);
    var kind, t := KindOf(c, k.tp.topic), w'.lanes[k].tasks[id];
    assert TaskOk(kind, w'.Init(k.tp), |w'.Log(k.tp)|, w'.Accounted(k.tp), w'.lanes[k], id, t);
    BatchedParts(kind, |w'.Log(k.tp)|, t.items, multiset(t.salvaged) + multiset(t.offs));
  }

  /** A batch being collected: consecutive and short of `size`. */
  lemma CollectingSafety(c: Config, w: World, run: seq<Act>, k: Key)
    requires ConfigOk(c) && Initial(w) && Runs(c, w, run) && GuardedRun(BySession, c, w, run)
    requires k in Final(c, w, run).lanes && Final(c, w, run).lanes[k].batch != []
    ensures var w' := Final(c, w, run);
            && k.member in w'.members && w'.members[k.member].running && k.tp.topic in c.routes && KindOf(c, k.tp.topic).Batch?
            && |w'.lanes[k].batch| < KindOf(c, k.tp.topic).size && Consecutive(w'.lanes[k].batch)
            && forall o :: !RunAt(w', k, o)
  {
    var w' := Final(c, w, run);
    ReachedLane(c, w, run, k);
    forall o ensures !RunAt(w', k, o) {
      if RunAt(w', k, o) { RunTask(c, w', k, o); }
    }
  }

  // ------------------------------------------------- batches that are given up

  /** The partition was committed past the message at some time. */
  ghost predicate PassedBy(w: World, tp: TP, x: nat) { exists c :: (tp, c) in w.ever && x < c }

  /** In order, a commit passes a message only when it is accounted for. */
  lemma NotPassed(c: Config, w: World, tp: TP, x: nat)
    requires WorldOk(ByOrder, c, w) && LeftOut(w, tp, x)
    ensures !PassedBy(w, tp, x)
  {
    forall o | (tp, o) in w.ever ensures o <= x {
      assert Covered(w.Init(tp), w.Accounted(tp), o, []);
    }
  }

  /** An activation that gives its messages up settles, takes and commits nothing. */
  lemma DropLeaves(c: Config, w: World, k: Key, e: Event, hop: HopChoice, x: nat)
    requires CanAct(c, w, k, e, hop) && Drops(w.members[k.member].abandoned, w.LaneOf(k), e) && LeftOut(w, k.tp, x)
    ensures StepAt(c, w, k, e, hop).commit.None? && LeftOut(Acted(c, w, k, e, hop), k.tp, x)
    ensures GuardedAt(ByOrder, c, w, k, e)
  {
    var w', r := Acted(c, w, k, e, hop), StepAt(c, w, k, e, hop);
    DropSettles(KindOf(c, k.tp.topic), w.members[k.member].running, w.members[k.member].abandoned, |w.Log(k.tp)|, w.LaneOf(k), e);
    FatesActed(c, w, k, e, hop);
    ActedIs(c, w, k, e, hop);
    RecordedGrows(c, w, k, e, hop, r);
    assert w'.fates == w.fates && w'.taken == w.taken && w'.init == w.init;
  }

  lemma DropSettles(k: Kind, running: bool, abandoned: bool, high: nat, l: Lane, e: Event)
    requires Enabled(k, running, high, l, e) && RunsHaveItems(l) && Drops(abandoned, l, e)
    ensures var r := Step(k, running, abandoned, high, l, e);
            r.settles == [] && r.takes == [] && r.commit.None? && !e.HopAcked? && !e.TransactionCommit? && Entering(k, running, l, e).None?
  {
  }

  /**
   * A batch that its handler aborted, or that named a message it was not
   * given, or whose hop failed, or whose hold a stop ended, is left
   * uncommitted for good: the step commits nothing, none of its open messages
   * was passed by a commit, and whatever happens next, in order and with its
   * transactions seen through, a commit passes one only when it has an
   * outcome of its own.
   */
  lemma GivenUpForGood(c: Config, w: World, k: Key, e: Event, hop: HopChoice, id: nat, run: seq<Act>, x: nat)
    requires ConfigOk(c) && WorldOk(ByOrder, c, w) && TakenOk(w) && CanAct(c, w, k, e, hop) && SeenThrough(w, k, e)
    requires Drops(w.members[k.member].abandoned, w.LaneOf(k), e) && OfActivation(e, id) && OpenIn(w.LaneOf(k), id, x) && LeftOut(w, k.tp, x)
    requires var w1 := Next(c, w, At(k, e, hop)); Runs(c, w1, run) && GuardedRun(ByOrder, c, w1, run) && SeenThroughRun(c, w1, run)
    ensures StepAt(c, w, k, e, hop).commit.None?
    ensures var w1 := Next(c, w, At(k, e, hop)); !OpenIn(w1.LaneOf(k), id, x) && !PassedBy(w1, k.tp, x)
    ensures var w2 := Final(c, Next(c, w, At(k, e, hop)), run); PassedBy(w2, k.tp, x) ==> HasOutcome(w2, k.tp, x) || Riding(w2, k.tp, x)
  {
    var w1 := Next(c, w, At(k, e, hop));
    DropLeaves(c, w, k, e, hop, x);
    NextKeeps(ByOrder, c, w, At(k, e, hop));
    NotPassed(c, w1, k.tp, x);
    DropEnds(c, w, k, e, hop, id, x);
    SeenThroughKeeps(ByOrder, c, w, k, e, hop);
    LaterPassed(c, w1, run, k.tp, x);
  }

  /** The activation is over, or has nothing open any more. */
  lemma OpenDropped(c: Config, w: World, k: Key, e: Event, hop: HopChoice, id: nat, x: nat)
    requires ConfigOk(c) && WorldOk(ByOrder, c, w) && CanAct(c, w, k, e, hop)
    requires Drops(w.members[k.member].abandoned, w.LaneOf(k), e) && OfActivation(e, id) && OpenIn(w.LaneOf(k), id, x)
    ensures !OpenIn(Acted(c, w, k, e, hop).LaneOf(k), id, x)
  {
    LaneIsWeak(ByOrder, c, w, k);
    OpenFate(KindOf(c, k.tp.topic), w.members[k.member].running, w.members[k.member].abandoned, |w.Log(k.tp)|, w.LaneOf(k), e, id, x);
    FatesActed(c, w, k, e, hop);
  }

  lemma DropEnds(c: Config, w: World, k: Key, e: Event, hop: HopChoice, id: nat, x: nat)
    requires ConfigOk(c) && WorldOk(ByOrder, c, w) && CanAct(c, w, k, e, hop)
    requires Drops(w.members[k.member].abandoned, w.LaneOf(k), e) && OfActivation(e, id) && OpenIn(w.LaneOf(k), id, x)
    ensures !OpenIn(Next(c, w, At(k, e, hop)).LaneOf(k), id, x)
  {
    OpenDropped(c, w, k, e, hop, id, x);
  }

  lemma LaterPassed(c: Config, w: World, run: seq<Act>, tp: TP, x: nat)
    requires ConfigOk(c) && WorldOk(ByOrder, c, w) && TakenOk(w) && w.Init(tp) <= x
    requires Runs(c, w, run) && GuardedRun(ByOrder, c, w, run) && SeenThroughRun(c, w, run)
    ensures var w' := Final(c, w, run); PassedBy(w', tp, x) ==> HasOutcome(w', tp, x) || Riding(w', tp, x)
  {
    var w' := Final(c, w, run);
    RunKeeps(ByOrder, c, w, run);
    TakenAlways(ByOrder, c, w, run);
    SameStart(c, w, run, tp);
    if PassedBy(w', tp, x) && !HasOutcome(w', tp, x) {
      if x !in w'.Accounted(tp) { NotPassed(c, w', tp, x); }
      assert x !in w'.Settled(tp);
      var t :| t in w'.taken && t.at == tp && t.off == x;
      assert Rides(w', t);
    }
  }

  lemma {:induction false} SameStart(c: Config, w: World, run: seq<Act>, tp: TP)
    requires Runs(c, w, run)
    ensures Final(c, w, run).Init(tp) == w.Init(tp)
    decreases |run|
  {
    if run != [] {
      StartStays(c, w, run[0]);
      SameStart(c, Next(c, w, run[0]), run[1..], tp);
    }
  }
}
