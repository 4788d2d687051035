/**
 * The exact condition. A step that lets a message pass an earlier one that is
 * not accounted for can be followed, by steps that are all in order, by a
 * commit past the one left behind; no other step can.
 */
module Exactness {
  import opened Basics
  import opened Lanes
  import opened LaneSafety
  import opened Order
  import opened Routes
  import opened Headers
  import opened World
  import opened WorldSafety
  import opened Prefix
  import E = EachLanes

  /** Guarded steps lead from here to a commit past a message that is not accounted for. */
  ghost predicate Doomed(g: Guard, c: Config, w: World) {
    exists w' :: Reaches(g, c, w, w') && !AccountedPrefix(w')
  }

  lemma DoomedFirst(g: Guard, c: Config, w: World, a: Act)
    requires Can(c, w, a) && GuardedAct(g, c, w, a) && Doomed(g, c, Next(c, w, a))
    ensures Doomed(g, c, w)
  {
    var w' :| Reaches(g, c, Next(c, w, a), w') && !AccountedPrefix(w');
    ReachesItself(g, c, w);
    ReachesOn(g, c, w, w, a);
    ReachesThrough(g, c, w, Next(c, w, a), w');
  }

  const HOP := HopChoice(false, false, 0, HopInput("", 0, "", "", Hook(map[], {})))

  /** The member may take steps of its own accord. */
  ghost predicate Able(c: Config, w: World, k: Key) {
    && k.member in w.members && !w.members[k.member].abandoned && k.tp.topic in c.routes
    && RunsHaveItems(w.LaneOf(k))
  }

  /** Steps of a run, and the end of a batch's waiting, are clean and in order wherever they happen. */
  predicate Free(e: Event) { e.MaxWait? || e.Decode? || e.Handler? || e.HopAcked? || e.CommitDone? }

  /** A free step that is no hop, as the world sees it. */
  lemma FreeStep(g: Guard, c: Config, w: World, k: Key, e: Event, l': Lane, settles: seq<nat>)
    requires Able(c, w, k) && Free(e) && !e.HopAcked?
    requires Enabled(KindOf(c, k.tp.topic), w.members[k.member].running, |w.Log(k.tp)|, w.LaneOf(k), e)
    requires Step(KindOf(c, k.tp.topic), w.members[k.member].running, false, |w.Log(k.tp)|, w.LaneOf(k), e) == Settling(l', settles)
    ensures var a := At(k, e, HOP);
            && Can(c, w, a) && GuardedAct(g, c, w, a)
            && Next(c, w, a) == w.(lanes := w.lanes[k := l'], fates := w.fates + (set x | x in settles :: Processed(k.tp, x)))
  {
    assert CanAct(c, w, k, e, HOP);
    assert TakenBy(w, k, e, []) == {};
  }

  // ------------------------------------------------- a run over a left-out message

  ghost predicate Committing(w: World, k: Key, id: nat, y: nat) {
    k in w.lanes && id in w.lanes[k].tasks &&
    var t := w.lanes[k].tasks[id];
    t.Run? && t.stage.Committing? && t.items != [] && y <= Last(t.items) && LeftOut(w, k.tp, y)
  }

  lemma CommitLands(g: Guard, c: Config, w: World, k: Key, id: nat)
    requires Able(c, w, k) && k in w.lanes && id in w.lanes[k].tasks
    requires w.lanes[k].tasks[id].Run? && w.lanes[k].tasks[id].stage.Committing? && w.lanes[k].tasks[id].items != []
    ensures var a, t := At(k, CommitDone(id, true), HOP), w.lanes[k].tasks[id];
            && Can(c, w, a) && GuardedAct(g, c, w, a)
            && Next(c, w, a) == w.(lanes := w.lanes[k := FinishRun(w.lanes[k], id, t)],
                                   committed := w.committed[k.tp := Last(t.items) + 1], ever := w.ever + {(k.tp, Last(t.items) + 1)})
  {
    CommitAble(c, w, k, id);
    var e := CommitDone(id, true);
    assert TakenBy(w, k, e, []) == {};
    assert w.fates + (set x | x in [] :: Processed(k.tp, x)) == w.fates;
  }

  lemma CommitAble(c: Config, w: World, k: Key, id: nat)
    requires Able(c, w, k) && k in w.lanes && id in w.lanes[k].tasks
    requires w.lanes[k].tasks[id].Run? && w.lanes[k].tasks[id].stage.Committing? && w.lanes[k].tasks[id].items != []
    ensures var e, t := CommitDone(id, true), w.lanes[k].tasks[id];
            CanAct(c, w, k, e, HOP) && StepAt(c, w, k, e, HOP) == Result(FinishRun(w.lanes[k], id, t), [], [], Some(Last(t.items) + 1), false)
  {
  }

  lemma CommitBreaks(g: Guard, c: Config, w: World, k: Key, id: nat, y: nat)
    requires Able(c, w, k) && Committing(w, k, id, y)
    ensures Doomed(g, c, w)
  {
    CommitLands(g, c, w, k, id);
    var w' := Next(c, w, At(k, CommitDone(id, true), HOP));
    ReachesItself(g, c, w);
    ReachesOn(g, c, w, w, At(k, CommitDone(id, true), HOP));
    StillLeftOut(w, w', k.tp, [], y);
    assert !Covered(w'.Init(k.tp), w'.Accounted(k.tp), w'.committed[k.tp], []);
  }

  ghost predicate Fresh(w: World, k: Key, id: nat, y: nat) {
    k in w.lanes && id in w.lanes[k].tasks &&
    var t := w.lanes[k].tasks[id];
    && t.Run? && t.stage.Decoding? && t.items != [] && y <= Last(t.items) && y !in Offs(t.items)
    && LeftOut(w, k.tp, y)
  }

  lemma {:induction false} AllDecoded(s: seq<nat>)
    ensures Select(s, {}, true) == [] && Select(s, {}, false) == s
  {
    if s != [] { AllDecoded(s[1..]); }
  }

  /** Everything decodes, the handler succeeds, and the run commits. */
  lemma RunBreaks(g: Guard, c: Config, w: World, k: Key, id: nat, y: nat)
    requires Able(c, w, k) && Fresh(w, k, id, y)
    ensures Doomed(g, c, w)
  {
    var l, t := w.lanes[k], w.lanes[k].tasks[id];
    var offs := Offs(t.items);
    AllDecoded(offs);
    var l1 := WithStage(l, id, t, Handling(offs));
    FreeStep(g, c, w, k, Decode(id, {}), l1, []);
    var w1 := Next(c, w, At(k, Decode(id, {}), HOP));
    assert w1 == w.(lanes := w.lanes[k := l1]);
    HandledBreaks(g, c, w1, k, id, y);
    DoomedFirst(g, c, w, At(k, Decode(id, {}), HOP));
  }

  ghost predicate InHandler(w: World, k: Key, id: nat, y: nat) {
    k in w.lanes && id in w.lanes[k].tasks &&
    var t := w.lanes[k].tasks[id];
    && t.Run? && t.items != [] && t.stage == Handling(Offs(t.items)) && y <= Last(t.items) && y !in Offs(t.items)
    && LeftOut(w, k.tp, y)
  }

  lemma HandledBreaks(g: Guard, c: Config, w: World, k: Key, id: nat, y: nat)
    requires Able(c, w, k) && InHandler(w, k, id, y)
    ensures Doomed(g, c, w)
  {
    var l, t := w.lanes[k], w.lanes[k].tasks[id];
    var offs := Offs(t.items);
    var l1 := WithStage(l, id, t.(handled := t.handled + offs), Stage.Committing);
    FreeStep(g, c, w, k, Handler(id, Resolved), l1, offs);
    var w1 := Next(c, w, At(k, Handler(id, Resolved), HOP));
    StillLeftOut(w, w1, k.tp, offs, y);
    CommitBreaks(g, c, w1, k, id, y);
    DoomedFirst(g, c, w, At(k, Handler(id, Resolved), HOP));
  }

  lemma StillLeftOut(w: World, w': World, tp: TP, offs: seq<nat>, y: nat)
    requires LeftOut(w, tp, y) && y !in offs
    requires w'.taken == w.taken && w'.init == w.init
    requires forall f :: f in w'.fates - w.fates ==> f.off in offs
    ensures LeftOut(w', tp, y)
  {
  }

  /** A batch being collected over a left-out message runs when it waited long enough. */
  lemma BatchBreaks(g: Guard, c: Config, w: World, k: Key, y: nat)
    requires Able(c, w, k) && k in w.lanes && w.lanes[k].batch != []
    requires y <= Last(w.lanes[k].batch) && y !in Offs(w.lanes[k].batch) && LeftOut(w, k.tp, y)
    ensures Doomed(g, c, w)
  {
    var l := w.lanes[k];
    FreeStep(g, c, w, k, MaxWait, FlushBatch(l), []);
    var w1 := Next(c, w, At(k, MaxWait, HOP));
    assert w1 == w.(lanes := w.lanes[k := FlushBatch(l)]);
    RunBreaks(g, c, w1, k, l.nextId, y);
    DoomedFirst(g, c, w, At(k, MaxWait, HOP));
  }

  // --------------------------------------------------- a step out of order

  /** Where the entering message ends up: at once in a run of its own, in the batch it fills, or in the one being collected. */
  lemma EntersHow(k: Kind, l: Lane, id: nat, off: nat, origin: Origin)
    requires k.Each? || l.run.None?
    ensures var l', item := Enter(k, l, id, off, origin), Item(off, l.epoch);
            || (l'.batch == l.batch + [item] && l'.batch != [])
            || (id in l'.tasks && l'.tasks[id] == NewRun(if k.Each? then [item] else l.batch + [item], origin))
  {
  }

  lemma EntryBreaks(g: Guard, c: Config, w: World, k: Key, id: nat, y: nat, item: Item, batch: seq<Item>, origin: Origin)
    requires Able(c, w, k) && k in w.lanes && LeftOut(w, k.tp, y) && y < item.off && y !in Offs(batch)
    requires var l := w.lanes[k];
             || l.batch == batch + [item]
             || (id in l.tasks && (l.tasks[id] == NewRun([item], origin) || l.tasks[id] == NewRun(batch + [item], origin)))
    ensures Doomed(g, c, w)
  {
    var l := w.lanes[k];
    assert Offs(batch + [item]) == Offs(batch) + [item.off];
    if l.batch == batch + [item] {
      BatchBreaks(g, c, w, k, y);
    } else {
      assert Fresh(w, k, id, y);
      RunBreaks(g, c, w, k, id, y);
    }
  }

  /** The lane after an entry, whatever the entering message waited for. */
  lemma EntryLane(k: Kind, running: bool, abandoned: bool, high: nat, l: Lane, e: Event)
    requires Enabled(k, running, high, l, e) && RunsHaveItems(l)
    requires Entering(k, running, l, e).Some? && !(e.Deliver? && e.how.Unroutable?)
    ensures var r, off := Step(k, running, abandoned, high, l, e), Entering(k, running, l, e).value;
            var item, id := Item(off, l.epoch), if e.Deliver? then l.nextId else e.id;
            && IsQuietResult(r)
            && (|| r.lane.batch == l.batch + [item]
                || (id in r.lane.tasks && exists origin :: r.lane.tasks[id] == NewRun([item], origin) || r.lane.tasks[id] == NewRun(l.batch + [item], origin)))
  {
    match e
    case Deliver(how) => EntersHow(k, l.(next := Some(l.next.value + 1), nextId := l.nextId + 1, front := Some(l.nextId)), l.nextId, l.next.value, Delivery);
    case Wake(id) => EntersHow(k, l, id, l.tasks[id].off, Delivery);
    case ReEnter(id) => EntersHow(k, l.(parked := None), id, l.tasks[id].off, Chain);
    case JoinWake(id) =>
    case _ =>
  }

  predicate IsQuietResult(r: Result) { r == Quiet(r.lane) }

  lemma QuietNext(c: Config, w: World, k: Key, e: Event, hop: HopChoice)
    requires CanAct(c, w, k, e, hop) && !e.HopAcked? && !e.TransactionCommit? && IsQuietResult(StepAt(c, w, k, e, hop))
    ensures Next(c, w, At(k, e, hop)) == w.(lanes := w.lanes[k := StepAt(c, w, k, e, hop).lane])
  {
    assert TakenBy(w, k, e, []) == {};
  }

  /** A message goes in while an earlier one is left out. */
  ghost predicate OutOfOrder(c: Config, w: World, k: Key, e: Event, y: nat)
    requires k.member in w.members && k.tp.topic in c.routes
  {
    var l := w.LaneOf(k);
    var off := Entering(KindOf(c, k.tp.topic), w.members[k.member].running, l, e);
    off.Some? && y < off.value && y !in Offs(l.batch) && LeftOut(w, k.tp, y)
  }

  /** No step that enters a message is one of a run. */
  lemma EnteringIsWaiting(k: Kind, running: bool, l: Lane, e: Event)
    requires Entering(k, running, l, e).Some?
    ensures e.Deliver? || e.Wake? || e.ReEnter? || e.JoinWake?
  {
  }

  lemma OutOfOrderBreaks(g: Guard, c: Config, w: World, k: Key, e: Event, hop: HopChoice, y: nat)
    requires ConfigOk(c) && MembersOk(w) && CanAct(c, w, k, e, hop) && OutOfOrder(c, w, k, e, y)
    requires !(e.Deliver? && e.how.Unroutable?)
    ensures Doomed(g, c, Next(c, w, At(k, e, hop)))
  {
    var kind, member, l := KindOf(c, k.tp.topic), w.members[k.member], w.LaneOf(k);
    EnteringIsWaiting(kind, member.running, l, e);
    EntryLane(kind, member.running, member.abandoned, |w.Log(k.tp)|, l, e);
    QuietNext(c, w, k, e, hop);
    var w' := Next(c, w, At(k, e, hop));
    var item := Item(Entering(kind, member.running, l, e).value, l.epoch);
    var id := if e.Deliver? then l.nextId else e.id;
    StepHasItems(kind, member.running, member.abandoned, |w.Log(k.tp)|, l, e);
    StillLeftOut(w, w', k.tp, [], y);
    if w'.lanes[k].batch == l.batch + [item] {
      EntryBreaks(g, c, w', k, id, y, item, l.batch, Delivery);
    } else {
      var origin :| w'.lanes[k].tasks[id] == NewRun([item], origin) || w'.lanes[k].tasks[id] == NewRun(l.batch + [item], origin);
      EntryBreaks(g, c, w', k, id, y, item, l.batch, origin);
    }
  }

  lemma StepHasItems(k: Kind, running: bool, abandoned: bool, high: nat, l: Lane, e: Event)
    requires Enabled(k, running, high, l, e) && RunsHaveItems(l)
    requires e.Deliver? || e.Wake? || e.ReEnter? || e.JoinWake?
    ensures RunsHaveItems(Step(k, running, abandoned, high, l, e).lane)
  {
  }

  // ------------------------------------------------------ messages of nobody

  /** Some destination for a message that belongs to nobody here. */
  ghost predicate HasDestination(c: Config, w: World, k: Key, off: nat)
    requires k.tp.topic in c.routes
  {
    off < |w.Log(k.tp)| && exists wantsRetry :: Destination(c, k.tp.topic, w.Log(k.tp)[off], wantsRetry).Some?
  }

  /** The lane that took in a message of nobody, and the one after its hop to the DLQ. */
  function Nobodys(l: Lane, hopped: bool): Lane
    requires l.next.Some?
  {
    var off, id := l.next.value, l.nextId;
    var t := Run([Item(off, l.epoch)], Delivery, true, Salvaging([off], []), [], []);
    l.(next := Some(off + 1), nextId := id + 1, front := Some(id),
       tasks := l.tasks[id := if hopped then t.(stage := Stage.Committing, forwarded := [off]) else t])
  }

  /** The hop of a message of nobody settles it, and its offset is next to be committed. */
  lemma NobodysHop(c: Config, w: World, w1: World, k: Key, l: Lane, hop: HopChoice)
    requires Able(c, w, k) && w.members[k.member].running && l.next.Some? && l.next.value < |w.Log(k.tp)| && RunsHaveItems(l)
    requires w1 == w.(lanes := w.lanes[k := Nobodys(l, false)])
    requires Destination(c, k.tp.topic, w.Log(k.tp)[l.next.value], hop.WantsRetry()).Some?
    ensures var a := At(k, HopAcked(l.nextId), hop);
            && Can(c, w1, a)
            && var w2 := Next(c, w1, a);
            && w2.members == w.members && w2.init == w.init && w2.taken == w.taken
            && k in w2.lanes && w2.lanes[k] == Nobodys(l, true)
            && (forall f :: f in w2.fates - w.fates ==> f.off == l.next.value)
  {
    var l1, off, e := Nobodys(l, false), l.next.value, HopAcked(l.nextId);
    assert w1.LaneOf(k) == l1 && w1.Log(k.tp) == w.Log(k.tp);
    assert CanHop(l1, l.nextId) && Forwarded(w1, k, e) == off;
    assert CanAct(c, w1, k, e, hop);
    NobodysStep(KindOf(c, k.tp.topic), |w.Log(k.tp)|, l);
    HopLeaves(c, w1, k, e, hop);
  }

  lemma NobodysStep(k: Kind, high: nat, l: Lane)
    requires l.next.Some? && RunsHaveItems(l)
    ensures var l1 := Nobodys(l, false);
            CanHop(l1, l.nextId) && RunsHaveItems(l1) && Acked(false, l1, l.nextId) == Settling(Nobodys(l, true), [l.next.value])
  {
    var l1 := Nobodys(l, false);
    assert [l.next.value][1..] == [] && [] + [l.next.value] == [l.next.value];
    assert Acked(false, l1, l.nextId).lane.tasks == Nobodys(l, true).tasks;
  }

  /** What a hop leaves with the broker: a copy, and its fate. */
  lemma HopLeaves(c: Config, w: World, k: Key, e: Event, hop: HopChoice)
    requires CanAct(c, w, k, e, hop) && e.HopAcked?
    ensures var w', r := Next(c, w, At(k, e, hop)), StepAt(c, w, k, e, hop);
            && w'.members == w.members && w'.init == w.init && w'.taken == w.taken
            && k in w'.lanes && w'.lanes[k] == r.lane
            && (forall f :: f in w'.fates - w.fates ==> f.off == Forwarded(w, k, e))
  {
    var r := StepAt(c, w, k, e, hop);
    assert !r.stop && r.commit.None?;
  }

  /** Its hop acknowledged, its offset is committed past the message left out. */
  lemma NobodyEnds(g: Guard, c: Config, w: World, w1: World, k: Key, l: Lane, hop: HopChoice, y: nat)
    requires Able(c, w, k) && w.members[k.member].running && l.next.Some? && l.next.value < |w.Log(k.tp)| && RunsHaveItems(l)
    requires w1 == w.(lanes := w.lanes[k := Nobodys(l, false)])
    requires Destination(c, k.tp.topic, w.Log(k.tp)[l.next.value], hop.WantsRetry()).Some?
    requires LeftOut(w, k.tp, y) && y < l.next.value
    ensures Doomed(g, c, w1)
  {
    NobodysHop(c, w, w1, k, l, hop);
    var a := At(k, HopAcked(l.nextId), hop);
    NobodyCommits(g, c, w, Next(c, w1, a), k, l, y);
    DoomedFirst(g, c, w1, a);
  }

  lemma NobodyCommits(g: Guard, c: Config, w: World, w2: World, k: Key, l: Lane, y: nat)
    requires Able(c, w, k) && l.next.Some? && RunsHaveItems(l) && LeftOut(w, k.tp, y) && y < l.next.value
    requires w2.members == w.members && w2.init == w.init && w2.taken == w.taken
    requires k in w2.lanes && w2.lanes[k] == Nobodys(l, true) && forall f :: f in w2.fates - w.fates ==> f.off == l.next.value
    ensures Doomed(g, c, w2)
  {
    StillLeftOut(w, w2, k.tp, [l.next.value], y);
    assert Committing(w2, k, l.nextId, y);
    CommitBreaks(g, c, w2, k, l.nextId, y);
  }

  lemma NobodyArrives(c: Config, w: World, k: Key, e: Event, hop: HopChoice)
    requires CanAct(c, w, k, e, hop) && e.Deliver? && e.how.Unroutable? && w.members[k.member].running
    ensures Next(c, w, At(k, e, hop)) == w.(lanes := w.lanes[k := Nobodys(w.LaneOf(k), false)])
  {
    QuietNext(c, w, k, e, hop);
  }

  lemma NobodyBreaks(g: Guard, c: Config, w: World, k: Key, e: Event, hop: HopChoice, y: nat)
    requires ConfigOk(c) && MembersOk(w) && CanAct(c, w, k, e, hop) && OutOfOrder(c, w, k, e, y)
    requires e.Deliver? && e.how.Unroutable? && HasDestination(c, w, k, w.LaneOf(k).next.value)
    ensures Doomed(g, c, Next(c, w, At(k, e, hop)))
  {
    var l := w.LaneOf(k);
    var wantsRetry :| Destination(c, k.tp.topic, w.Log(k.tp)[l.next.value], wantsRetry).Some?;
    NobodyArrives(c, w, k, e, hop);
    NobodyEnds(g, c, w, Next(c, w, At(k, e, hop)), k, l, HOP.(accepted := wantsRetry), y);
  }

  // ------------------------------------------------------------ both directions

  /**
   * From any state reached in order, a step is in order if and only if nothing
   * that may follow in order ever commits past a message that is not accounted
   * for. So no weaker condition keeps the prefix, and no stronger one is
   * needed.
   */
  lemma OrderExactly(c: Config, w: World, k: Key, e: Event, hop: HopChoice)
    requires ConfigOk(c) && WorldOk(ByOrder, c, w) && CanAct(c, w, k, e, hop)
    ensures GuardedAt(ByOrder, c, w, k, e) <==> !Doomed(ByOrder, c, Next(c, w, At(k, e, hop)))
  {
    var w' := Next(c, w, At(k, e, hop));
    if GuardedAt(ByOrder, c, w, k, e) {
      NextKeeps(ByOrder, c, w, At(k, e, hop));
      NeverDoomed(c, w');
    } else {
      var y := LeftBehind(c, w, k, e, hop);
      if e.Deliver? && e.how.Unroutable? {
        NobodyBreaks(ByOrder, c, w, k, e, hop, y);
      } else {
        OutOfOrderBreaks(ByOrder, c, w, k, e, hop, y);
      }
    }
  }

  /** A step that is not in order leaves somebody behind. */
  lemma LeftBehind(c: Config, w: World, k: Key, e: Event, hop: HopChoice) returns (y: nat)
    requires CanAct(c, w, k, e, hop) && !GuardedAt(ByOrder, c, w, k, e)
    ensures OutOfOrder(c, w, k, e, y)
    ensures e.Deliver? && e.how.Unroutable? ==> HasDestination(c, w, k, w.LaneOf(k).next.value)
  {
    var off := Entering(KindOf(c, k.tp.topic), w.members[k.member].running, w.LaneOf(k), e).value;
    y :| w.Init(k.tp) <= y < off && y !in w.Accounted(k.tp) && y !in Offs(w.LaneOf(k).batch);
  }

  lemma NeverDoomed(c: Config, w: World)
    requires ConfigOk(c) && WorldOk(ByOrder, c, w)
    ensures !Doomed(ByOrder, c, w)
  {
    if Doomed(ByOrder, c, w) {
      var w' :| Reaches(ByOrder, c, w, w') && !AccountedPrefix(w');
      var run :| Runs(c, w, run) && GuardedRun(ByOrder, c, w, run) && Final(c, w, run) == w';
      OrderSuffices(c, w, run);
    }
  }

  // ---------------------------------------------------- a resume that is not clean

  /** `rec` is delivered next, once somebody produced it, and belongs to somebody. */
  ghost predicate ComesNext(c: Config, w: World, k: Key, rec: Rec)
    requires k.tp.topic in c.routes
  {
    var next := w.LaneOf(k).next;
    && next.Some? && (next.value < |w.Log(k.tp)| ==> w.Log(k.tp)[next.value] == rec)
    && Owner(c, k.tp.topic, rec).Some?
  }

  /** An open partition: the next message may be delivered, over whatever the latest delivery became. */
  ghost predicate Opened(w: World, k: Key) {
    var l := w.LaneOf(k);
    && k.member in w.members && w.members[k.member].running && !l.paused && l.next.Some?
    && (l.front.Some? && l.front.value in l.tasks ==> !HoldsDelivery(l.tasks[l.front.value]))
  }

  lemma NextPasses(g: Guard, c: Config, w: World, k: Key, rec: Rec, y: nat)
    requires ConfigOk(c) && MembersOk(w) && Able(c, w, k) && Opened(w, k) && ComesNext(c, w, k, rec)
    requires w.LaneOf(k).next.value < |w.Log(k.tp)|
    requires var l := w.LaneOf(k); OutOfOrder(c, w, k, Deliver(Now), y)
    requires GuardedAct(g, c, w, At(k, Deliver(Now), HOP))
    ensures Doomed(g, c, w)
  {
    assert CanAct(c, w, k, Deliver(Now), HOP);
    OutOfOrderBreaks(g, c, w, k, Deliver(Now), HOP, y);
    DoomedFirst(g, c, w, At(k, Deliver(Now), HOP));
  }

  /** If nothing is there to deliver, somebody produces it. */
  lemma NextComes(c: Config, w: World, k: Key, rec: Rec, y: nat)
    requires ConfigOk(c) && MembersOk(w) && Able(c, w, k) && Opened(w, k) && ComesNext(c, w, k, rec)
    requires w.LaneOf(k).next.value <= |w.Log(k.tp)| && OutOfOrder(c, w, k, Deliver(Now), y)
    ensures Doomed(BySession, c, w)
  {
    if w.LaneOf(k).next.value < |w.Log(k.tp)| {
      NextPasses(BySession, c, w, k, rec, y);
    } else {
      var w1 := Appended(w, k.tp, rec);
      assert w1.Log(k.tp) == w.Log(k.tp) + [rec] && w1.LaneOf(k) == w.LaneOf(k);
      StillLeftOut(w, w1, k.tp, [], y);
      NextPasses(BySession, c, w1, k, rec, y);
      DoomedFirst(BySession, c, w, Append(k.tp, rec));
    }
  }

  /** What a chain's end leaves of the session when a later message's chain guards it. */
  lemma ResumeOpens(c: Config, w: World, k: Key, id: nat, hop: HopChoice)
    requires CanAct(c, w, k, Event.Resume(id), hop)
    ensures Next(c, w, At(k, Event.Resume(id), hop)) == w.(lanes := w.lanes[k := E.ResumedLane(w.LaneOf(k), id)])
  {
    QuietNext(c, w, k, Event.Resume(id), hop);
  }

  /** The guarding message is the one just before the next, and not in the batch being collected. */
  lemma GuardedMessage(k: Kind, init: nat, high: nat, S: set<nat>, l: Lane, id: nat, y: nat)
    requires LaneOk(k, true, false, init, high, S, l) && Guards(k, S, l, id) && y in FrontOffs(l)
    ensures l.next.Some? && y < l.next.value <= high && y !in Offs(l.batch)
  {
    var t := l.tasks[l.front.value];
    assert TaskOk(k, init, high, S, l, l.front.value, t);
    if k.Each? && t.Run? { OnlyItem(t.items, y); }
  }

  lemma OnlyItem(items: seq<Item>, y: nat)
    requires |items| == 1 && y in Offs(items)
    ensures y == Last(items)
  {
  }

  /**
   * A chain that resumes the partition over a message it does not know, which
   * nothing accounts for yet: however clean all the rest is, the group may
   * commit past that message. (Where messages are collected and a batch is
   * running, the next message waits behind it like the first one.)
   */
  lemma UncleanResumeBreaks(c: Config, w: World, k: Key, id: nat, hop: HopChoice, rec: Rec, y: nat)
    requires ConfigOk(c) && WorldOk(BySession, c, w) && CanAct(c, w, k, Event.Resume(id), hop)
    requires w.members[k.member].running && ComesNext(c, w, k, rec)
    requires Guards(KindOf(c, k.tp.topic), w.Accounted(k.tp), w.LaneOf(k), id)
    requires KindOf(c, k.tp.topic).Batch? ==> w.LaneOf(k).run.None?
    requires y in FrontOffs(w.LaneOf(k)) && LeftOut(w, k.tp, y)
    ensures Doomed(BySession, c, Next(c, w, At(k, Event.Resume(id), hop)))
  {
    var l := w.LaneOf(k);
    LaneAlways(BySession, c, w, k);
    GuardedMessage(KindOf(c, k.tp.topic), w.Init(k.tp), |w.Log(k.tp)|, w.Accounted(k.tp), l, id, y);
    ResumedIsOpen(KindOf(c, k.tp.topic), w.Accounted(k.tp), l, id);
    ResumeOpens(c, w, k, id, hop);
    OpenPasses(c, w, Next(c, w, At(k, Event.Resume(id), hop)), k, E.ResumedLane(l, id), rec, y);
  }

  lemma ResumedIsOpen(k: Kind, S: set<nat>, l: Lane, id: nat)
    requires RunsHaveItems(l) && Guards(k, S, l, id)
    ensures var l' := E.ResumedLane(l, id);
            && !l'.paused && l'.next == l.next && l'.batch == l.batch && l'.run == l.run && RunsHaveItems(l')
            && l'.front.Some? && l'.front.value in l'.tasks && !HoldsDelivery(l'.tasks[l'.front.value])
  {
  }

  lemma OpenPasses(c: Config, w: World, w': World, k: Key, l': Lane, rec: Rec, y: nat)
    requires ConfigOk(c) && MembersOk(w) && Able(c, w, k) && w.members[k.member].running && ComesNext(c, w, k, rec)
    requires w' == w.(lanes := w.lanes[k := l']) && l'.next == w.LaneOf(k).next && !l'.paused && RunsHaveItems(l')
    requires KindOf(c, k.tp.topic).Batch? ==> l'.run.None?
    requires l'.front.Some? && l'.front.value in l'.tasks && !HoldsDelivery(l'.tasks[l'.front.value])
    requires y < l'.next.value <= |w.Log(k.tp)| && y !in Offs(l'.batch) && LeftOut(w, k.tp, y)
    ensures Doomed(BySession, c, w')
  {
    assert w'.LaneOf(k) == l' && w'.Log(k.tp) == w.Log(k.tp);
    StillLeftOut(w, w', k.tp, [], y);
    NextComes(c, w', k, rec, y);
  }

  /** Where messages are handled one by one, a resume is clean if and only if no clean continuation breaks the prefix. */
  lemma ResumeExactly(c: Config, w: World, k: Key, id: nat, hop: HopChoice, rec: Rec)
    requires ConfigOk(c) && WorldOk(BySession, c, w) && CanAct(c, w, k, Event.Resume(id), hop)
    requires w.members[k.member].running && KindOf(c, k.tp.topic).Each? && ComesNext(c, w, k, rec) && w.Init(k.tp) < w.LaneOf(k).next.value
    ensures GuardedAt(BySession, c, w, k, Event.Resume(id)) <==> !Doomed(BySession, c, Next(c, w, At(k, Event.Resume(id), hop)))
  {
    var a := At(k, Event.Resume(id), hop);
    if GuardedAt(BySession, c, w, k, Event.Resume(id)) {
      NextKeeps(BySession, c, w, a);
      CleanNeverDoomed(c, Next(c, w, a));
    } else {
      var l := w.LaneOf(k);
      var y :| y in FrontOffs(l) && y !in w.Accounted(k.tp);
      LaneAlways(BySession, c, w, k);
      GuardingAlone(w.Init(k.tp), |w.Log(k.tp)|, w.Accounted(k.tp), l, id, y);
      UncleanResumeBreaks(c, w, k, id, hop, rec, y);
    }
  }

  lemma GuardingAlone(init: nat, high: nat, S: set<nat>, l: Lane, id: nat, y: nat)
    requires LaneOk(Each, true, false, init, high, S, l) && Guards(Each, S, l, id) && y in FrontOffs(l)
    ensures l.next.Some? && y + 1 == l.next.value
  {
    var t := l.tasks[l.front.value];
    assert TaskOk(Each, init, high, S, l, l.front.value, t);
    if t.Run? { OnlyItem(t.items, y); }
  }

  lemma CleanNeverDoomed(c: Config, w: World)
    requires ConfigOk(c) && WorldOk(BySession, c, w)
    ensures !Doomed(BySession, c, w)
  {
    if Doomed(BySession, c, w) {
      var w' :| Reaches(BySession, c, w, w') && !AccountedPrefix(w');
      var run :| Runs(c, w, run) && GuardedRun(BySession, c, w, run) && Final(c, w, run) == w';
      RunKeeps(BySession, c, w, run);
      BooksCovered(w');
    }
  }

  // ----------------------------------------------- a re-entry that is not clean

  lemma SessionsAreOrdered(c: Config, w: World)
    requires ConfigOk(c) && WorldOk(BySession, c, w)
    ensures WorldOk(ByOrder, c, w)
  {
    forall k | k in w.lanes ensures LaneFine(ByOrder, c, w, k) {
      assert LaneFine(BySession, c, w, k);
      LaneIsWeak(BySession, c, w, k);
    }
  }

  /**
   * A parked message re-enters where messages are collected, whether a
   * revocation discarded it or not. If no batch is running, then no
   * continuation in order commits past a message that is not accounted for if
   * and only if every message before it is accounted for or in the batch it
   * joins. Beside a running batch it only waits, which does no harm yet:
   * `JoinExactly` is about the end of that wait.
   */
  lemma ReEntryExactly(c: Config, w: World, k: Key, id: nat, hop: HopChoice)
    requires ConfigOk(c) && WorldOk(BySession, c, w) && CanAct(c, w, k, ReEnter(id), hop)
    requires w.members[k.member].running && KindOf(c, k.tp.topic).Batch?
    ensures (w.LaneOf(k).run.None? ==> NothingBehind(w, k, id)) <==> !Doomed(ByOrder, c, Next(c, w, At(k, ReEnter(id), hop)))
  {
    SessionsAreOrdered(c, w);
    ReEntryGuard(c, w, k, id, hop);
    OrderExactly(c, w, k, ReEnter(id), hop);
  }

  lemma ReEntryGuard(c: Config, w: World, k: Key, id: nat, hop: HopChoice)
    requires CanAct(c, w, k, ReEnter(id), hop) && w.members[k.member].running && KindOf(c, k.tp.topic).Batch?
    ensures GuardedAt(ByOrder, c, w, k, ReEnter(id)) <==> (w.LaneOf(k).run.None? ==> NothingBehind(w, k, id))
  {
  }

  lemma JoinGuard(c: Config, w: World, k: Key, id: nat, hop: HopChoice)
    requires CanAct(c, w, k, JoinWake(id), hop) && KindOf(c, k.tp.topic).Batch?
    requires !Lost(w.members[k.member].running, w.LaneOf(k), w.LaneOf(k).tasks[id].epoch)
    ensures GuardedAt(ByOrder, c, w, k, JoinWake(id)) <==> NothingBehind(w, k, id)
  {
  }

  /** Every message before this one is accounted for, or in the batch being collected. */
  ghost predicate NothingBehind(w: World, k: Key, id: nat)
    requires id in w.LaneOf(k).tasks && (w.LaneOf(k).tasks[id].Parked? || w.LaneOf(k).tasks[id].Joining?)
  {
    Covered(w.Init(k.tp), w.Accounted(k.tp), w.LaneOf(k).tasks[id].off, Offs(w.LaneOf(k).batch))
  }

  /**
   * A message that waited for a running batch is collected once that has run:
   * no continuation in order commits past a message that is not accounted for
   * if and only if every message before it is accounted for or in the batch
   * it joins, which is where a batch that was given up makes the difference.
   */
  lemma JoinExactly(c: Config, w: World, k: Key, id: nat, hop: HopChoice)
    requires ConfigOk(c) && WorldOk(ByOrder, c, w) && CanAct(c, w, k, JoinWake(id), hop) && KindOf(c, k.tp.topic).Batch?
    requires !Lost(w.members[k.member].running, w.LaneOf(k), w.LaneOf(k).tasks[id].epoch)
    ensures NothingBehind(w, k, id) <==> !Doomed(ByOrder, c, Next(c, w, At(k, JoinWake(id), hop)))
  {
    JoinGuard(c, w, k, id, hop);
    OrderExactly(c, w, k, JoinWake(id), hop);
  }
}
