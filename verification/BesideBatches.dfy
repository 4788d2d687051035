/**
 * A step that is not clean while a batch of the partition is running: a
 * message waits for that batch, and goes on over an earlier one once the
 * batch has run or was given up.
 */
module BesideBatches {
  import opened Basics
  import opened Lanes
  import opened LaneSafety
  import opened Order
  import opened Routes
  import opened World
  import opened WorldSafety
  import opened Prefix
  import X = Exactness
  import E = EachLanes

  /** What the run would have to forward has somewhere to go. */
  ghost predicate Forwards(c: Config, w: World, k: Key, t: Task)
    requires t.Run? && k.tp.topic in c.routes
  {
    match t.stage
    case Salvaging(bad, _) => forall i :: 0 <= i < |bad| ==> X.HasDestination(c, w, k, bad[i])
    case Forwarding(left) => forall i :: 0 <= i < |left| ==> X.HasDestination(c, w, k, left[i])
    case _ => true
  }

  /** The running batch can run to its end, and does not have the message. */
  ghost predicate MayEnd(c: Config, w: World, k: Key, r: nat, y: nat)
    requires k.tp.topic in c.routes
  {
    var l := w.LaneOf(k);
    r in l.tasks && l.tasks[r].Run? && StageOk(l.tasks[r]) && l.tasks[r].items != [] && y !in Open(l.tasks[r]) && Forwards(c, w, k, l.tasks[r])
  }

  /** A later message waits for the batch `r`. */
  ghost predicate Waits(c: Config, w: World, k: Key, n: nat, r: nat, y: nat) {
    && X.Able(c, w, k) && MembersOk(w) && w.members[k.member].running && KindOf(c, k.tp.topic).Batch? && n != r
    && LeftOut(w, k.tp, y) && k in w.lanes && w.lanes[k].batch == [] && n in w.lanes[k].tasks
    && var t := w.lanes[k].tasks[n]; t.Joining? && t.epoch == w.lanes[k].epoch && t.behind == r && y < t.off
  }

  /** How much the run still has to do. */
  function Ahead(t: Task): nat
    requires t.Run?
  {
    match t.stage
    case Decoding => 3
    case Salvaging(bad, _) => 3 + |bad|
    case Handling(_) => 2
    case Forwarding(left) => 1 + |left|
    case Committing => 1
  }

  // ------------------------------------------------------- the batch is over

  lemma OverBreaks(c: Config, w: World, k: Key, n: nat, r: nat, y: nat)
    requires ConfigOk(c) && Waits(c, w, k, n, r, y) && BatchOver(w.lanes[k], r)
    ensures X.Doomed(BySession, c, w)
  {
    var e := JoinWake(n);
    assert CanAct(c, w, k, e, X.HOP);
    assert X.OutOfOrder(c, w, k, e, y);
    X.OutOfOrderBreaks(BySession, c, w, k, e, X.HOP, y);
    X.DoomedFirst(BySession, c, w, At(k, e, X.HOP));
  }

  // --------------------------------------------------------- one step nearer

  /** A step of the run that leaves everything else as it was. */
  ghost predicate Nearer(w: World, w': World, k: Key, r: nat, settled: seq<nat>) {
    && w'.members == w.members && w'.init == w.init && w'.taken == w.taken && w.Log(k.tp) <= w'.Log(k.tp)
    && k in w.lanes && k in w'.lanes && w'.lanes[k].batch == w.lanes[k].batch && w'.lanes[k].epoch == w.lanes[k].epoch
    && RunsHaveItems(w'.lanes[k])
    && (forall o :: o in w.lanes[k].tasks && o != r ==> o in w'.lanes[k].tasks && w'.lanes[k].tasks[o] == w.lanes[k].tasks[o])
    && (forall f :: f in w'.fates - w.fates ==> f.off in settled)
  }

  lemma StillWaits(c: Config, w: World, w': World, k: Key, n: nat, r: nat, y: nat, settled: seq<nat>)
    requires Waits(c, w, k, n, r, y) && Nearer(w, w', k, r, settled) && y !in settled
    ensures Waits(c, w', k, n, r, y)
  {
    X.StillLeftOut(w, w', k.tp, settled, y);
  }

  /** A free step of the run. */
  lemma FreeNearer(c: Config, w: World, k: Key, r: nat, e: Event, l': Lane, settled: seq<nat>)
    requires X.Able(c, w, k) && k in w.lanes && X.Free(e) && !e.HopAcked?
    requires Enabled(KindOf(c, k.tp.topic), w.members[k.member].running, |w.Log(k.tp)|, w.LaneOf(k), e)
    requires Step(KindOf(c, k.tp.topic), w.members[k.member].running, false, |w.Log(k.tp)|, w.LaneOf(k), e) == Settling(l', settled)
    requires l'.batch == w.lanes[k].batch && l'.epoch == w.lanes[k].epoch && RunsHaveItems(l')
    requires forall o :: o in w.lanes[k].tasks && o != r ==> o in l'.tasks && l'.tasks[o] == w.lanes[k].tasks[o]
    ensures var a := At(k, e, X.HOP);
            && Can(c, w, a) && GuardedAct(BySession, c, w, a)
            && Nearer(w, Next(c, w, a), k, r, settled) && Next(c, w, a).lanes[k] == l' && Next(c, w, a).Log(k.tp) == w.Log(k.tp)
  {
    X.FreeStep(BySession, c, w, k, e, l', settled);
  }

  lemma DecodeNearer(c: Config, w: World, k: Key, r: nat, y: nat)
    requires X.Able(c, w, k) && k in w.lanes && MayEnd(c, w, k, r, y) && w.lanes[k].tasks[r].stage.Decoding?
    ensures var a := At(k, Decode(r, {}), X.HOP);
            && Can(c, w, a) && GuardedAct(BySession, c, w, a) && Nearer(w, Next(c, w, a), k, r, []) && MayEnd(c, Next(c, w, a), k, r, y)
            && Ahead(Next(c, w, a).lanes[k].tasks[r]) < Ahead(w.lanes[k].tasks[r])
  {
    var l, t := w.lanes[k], w.lanes[k].tasks[r];
    X.AllDecoded(Offs(t.items));
    FreeNearer(c, w, k, r, Decode(r, {}), WithStage(l, r, t, Handling(Offs(t.items))), []);
  }

  lemma ResolveNearer(c: Config, w: World, k: Key, r: nat, y: nat)
    requires X.Able(c, w, k) && k in w.lanes && MayEnd(c, w, k, r, y) && w.lanes[k].tasks[r].stage.Handling?
    ensures var a := At(k, Handler(r, Resolved), X.HOP);
            && Can(c, w, a) && GuardedAct(BySession, c, w, a)
            && Nearer(w, Next(c, w, a), k, r, Open(w.lanes[k].tasks[r])) && MayEnd(c, Next(c, w, a), k, r, y)
            && Ahead(Next(c, w, a).lanes[k].tasks[r]) < Ahead(w.lanes[k].tasks[r])
  {
    var l, t := w.lanes[k], w.lanes[k].tasks[r];
    var d := t.stage.decoded;
    FreeNearer(c, w, k, r, Handler(r, Resolved), WithStage(l, r, t.(handled := t.handled + d), Stage.Committing), d);
  }

  /** Its commit fails, which changes nothing of what the group committed. */
  lemma CommitNearer(c: Config, w: World, k: Key, r: nat, y: nat)
    requires X.Able(c, w, k) && k in w.lanes && MayEnd(c, w, k, r, y) && w.lanes[k].tasks[r].stage.Committing?
    ensures var a := At(k, CommitDone(r, false), X.HOP);
            && Can(c, w, a) && GuardedAct(BySession, c, w, a)
            && Nearer(w, Next(c, w, a), k, r, []) && BatchOver(Next(c, w, a).lanes[k], r)
  {
    var l := w.lanes[k];
    FreeNearer(c, w, k, r, CommitDone(r, false), FinishRun(l, r, l.tasks[r]), []);
  }

  // ------------------------------------------------------------------- hops

  /** The run after its next hop was acknowledged. */
  lemma HopAhead(l: Lane, r: nat, y: nat)
    requires CanHop(l, r) && l.tasks[r].items != [] && StageOk(l.tasks[r]) && y !in Open(l.tasks[r]) && RunsHaveItems(l)
    ensures var l' := Acked(false, l, r).lane;
            && r in l'.tasks && l'.tasks[r].Run? && l'.tasks[r].items == l.tasks[r].items && StageOk(l'.tasks[r])
            && y !in Open(l'.tasks[r]) && y != Hopping(l, r) && Ahead(l'.tasks[r]) < Ahead(l.tasks[r])
            && l'.batch == l.batch && l'.epoch == l.epoch && RunsHaveItems(l')
            && (forall o :: o in l.tasks && o != r ==> o in l'.tasks && l'.tasks[o] == l.tasks[o])
  {
    var s := l.tasks[r].stage;
    if s.Salvaging? { assert s.bad == [s.bad[0]] + s.bad[1..]; } else { assert s.left == [s.left[0]] + s.left[1..]; }
  }

  /** What was still to be forwarded is, but for the one that was. */
  lemma HopForwards(c: Config, w: World, w': World, k: Key, r: nat)
    requires k.tp.topic in c.routes && k in w.lanes && k in w'.lanes && CanHop(w.lanes[k], r) && w.lanes[k].tasks[r].items != []
    requires Forwards(c, w, k, w.lanes[k].tasks[r]) && w.Log(k.tp) <= w'.Log(k.tp)
    requires w'.lanes[k] == Acked(false, w.lanes[k], r).lane && r in w'.lanes[k].tasks && w'.lanes[k].tasks[r].Run?
    ensures Forwards(c, w', k, w'.lanes[k].tasks[r])
  {
    forall x: nat | X.HasDestination(c, w, k, x) ensures X.HasDestination(c, w', k, x) {
      assert w'.Log(k.tp)[x] == w.Log(k.tp)[x];
    }
  }

  lemma HopNearer(c: Config, w: World, k: Key, r: nat, y: nat, hop: HopChoice)
    requires X.Able(c, w, k) && k in w.lanes && MayEnd(c, w, k, r, y) && CanHop(w.lanes[k], r)
    requires Hopping(w.lanes[k], r) < |w.Log(k.tp)| && Destination(c, k.tp.topic, w.Log(k.tp)[Hopping(w.lanes[k], r)], hop.WantsRetry()).Some?
    ensures var a := At(k, HopAcked(r), hop);
            && Can(c, w, a) && GuardedAct(BySession, c, w, a)
            && Nearer(w, Next(c, w, a), k, r, [Hopping(w.lanes[k], r)]) && MayEnd(c, Next(c, w, a), k, r, y)
            && y != Hopping(w.lanes[k], r)
            && Ahead(Next(c, w, a).lanes[k].tasks[r]) < Ahead(w.lanes[k].tasks[r])
  {
    var e := HopAcked(r);
    assert CanAct(c, w, k, e, hop);
    X.HopLeaves(c, w, k, e, hop);
    HopAhead(w.lanes[k], r, y);
    HopLogs(c, w, k, e, hop);
    HopForwards(c, w, Next(c, w, At(k, e, hop)), k, r);
  }

  lemma HopLogs(c: Config, w: World, k: Key, e: Event, hop: HopChoice)
    requires CanAct(c, w, k, e, hop) && e.HopAcked?
    ensures forall tp :: w.Log(tp) <= Next(c, w, At(k, e, hop)).Log(tp)
  {
    RecordedGrows(c, w, k, e, hop, StepAt(c, w, k, e, hop));
    assert !StepAt(c, w, k, e, hop).stop;
  }

  /** Any run that can end ends, and then the message that waited passes the one left out. */
  lemma {:induction false} EndBreaks(c: Config, w: World, k: Key, n: nat, r: nat, y: nat)
    requires ConfigOk(c) && Waits(c, w, k, n, r, y) && MayEnd(c, w, k, r, y)
    ensures X.Doomed(BySession, c, w)
    decreases Ahead(w.lanes[k].tasks[r])
  {
    var t := w.lanes[k].tasks[r];
    match t.stage
    case Decoding =>
      DecodeNearer(c, w, k, r, y);
      GoesOn(c, w, k, n, r, y, At(k, Decode(r, {}), X.HOP), []);
      EndBreaks(c, Next(c, w, At(k, Decode(r, {}), X.HOP)), k, n, r, y);
      X.DoomedFirst(BySession, c, w, At(k, Decode(r, {}), X.HOP));
    case Handling(d) =>
      ResolveNearer(c, w, k, r, y);
      GoesOn(c, w, k, n, r, y, At(k, Handler(r, Resolved), X.HOP), d);
      EndBreaks(c, Next(c, w, At(k, Handler(r, Resolved), X.HOP)), k, n, r, y);
      X.DoomedFirst(BySession, c, w, At(k, Handler(r, Resolved), X.HOP));
    case Committing =>
      CommitNearer(c, w, k, r, y);
      GoesOn(c, w, k, n, r, y, At(k, CommitDone(r, false), X.HOP), []);
      OverBreaks(c, Next(c, w, At(k, CommitDone(r, false), X.HOP)), k, n, r, y);
      X.DoomedFirst(BySession, c, w, At(k, CommitDone(r, false), X.HOP));
    case _ =>
      var hop := ItsHop(c, w, k, r);
      HopNearer(c, w, k, r, y, hop);
      GoesOn(c, w, k, n, r, y, At(k, HopAcked(r), hop), [Hopping(w.lanes[k], r)]);
      EndBreaks(c, Next(c, w, At(k, HopAcked(r), hop)), k, n, r, y);
      X.DoomedFirst(BySession, c, w, At(k, HopAcked(r), hop));
  }

  lemma GoesOn(c: Config, w: World, k: Key, n: nat, r: nat, y: nat, a: Act, settled: seq<nat>)
    requires Waits(c, w, k, n, r, y) && Can(c, w, a) && Nearer(w, Next(c, w, a), k, r, settled) && y !in settled
    ensures Waits(c, Next(c, w, a), k, n, r, y)
  {
    StillWaits(c, w, Next(c, w, a), k, n, r, y, settled);
  }

  lemma ItsHop(c: Config, w: World, k: Key, r: nat) returns (hop: HopChoice)
    requires k.tp.topic in c.routes && k in w.lanes && r in w.lanes[k].tasks && w.lanes[k].tasks[r].Run?
    requires Forwards(c, w, k, w.lanes[k].tasks[r]) && CanHop(w.lanes[k], r)
    ensures Hopping(w.lanes[k], r) < |w.Log(k.tp)| && Destination(c, k.tp.topic, w.Log(k.tp)[Hopping(w.lanes[k], r)], hop.WantsRetry()).Some?
  {
    var off := Hopping(w.lanes[k], r);
    assert X.HasDestination(c, w, k, off);
    var wantsRetry :| Destination(c, k.tp.topic, w.Log(k.tp)[off], wantsRetry).Some?;
    hop := X.HOP.(accepted := wantsRetry);
  }

  // ------------------------------------------------------ a batch given up

  /** A batch of an earlier session whose handler is not done: a circuit hold may still give it up. */
  predicate MayGiveUp(l: Lane, r: nat) {
    && r in l.tasks && l.tasks[r].Run? && l.tasks[r].items != [] && l.tasks[r].items[0].epoch != l.epoch
    && (l.tasks[r].stage.Decoding? || l.tasks[r].stage.Handling?)
  }

  lemma ReleaseNearer(c: Config, w: World, k: Key, r: nat)
    requires X.Able(c, w, k) && k in w.lanes && MayGiveUp(w.lanes[k], r) && w.lanes[k].tasks[r].stage.Handling?
    ensures var a := At(k, Handler(r, Released), X.HOP);
            && Can(c, w, a) && GuardedAct(BySession, c, w, a)
            && Nearer(w, Next(c, w, a), k, r, []) && BatchOver(Next(c, w, a).lanes[k], r)
  {
    var l := w.lanes[k];
    FreeNearer(c, w, k, r, Handler(r, Released), FinishRun(l, r, l.tasks[r]), []);
  }

  lemma ReleaseBreaks(c: Config, w: World, k: Key, n: nat, r: nat, y: nat)
    requires ConfigOk(c) && Waits(c, w, k, n, r, y) && MayGiveUp(w.lanes[k], r) && w.lanes[k].tasks[r].stage.Handling?
    ensures X.Doomed(BySession, c, w)
  {
    var a := At(k, Handler(r, Released), X.HOP);
    ReleaseNearer(c, w, k, r);
    GoesOn(c, w, k, n, r, y, a, []);
    OverBreaks(c, Next(c, w, a), k, n, r, y);
    X.DoomedFirst(BySession, c, w, a);
  }

  lemma GiveUpBreaks(c: Config, w: World, k: Key, n: nat, r: nat, y: nat)
    requires ConfigOk(c) && Waits(c, w, k, n, r, y) && MayGiveUp(w.lanes[k], r)
    ensures X.Doomed(BySession, c, w)
  {
    if w.lanes[k].tasks[r].stage.Handling? {
      ReleaseBreaks(c, w, k, n, r, y);
    } else {
      var t, a := w.lanes[k].tasks[r], At(k, Decode(r, {}), X.HOP);
      X.AllDecoded(Offs(t.items));
      FreeNearer(c, w, k, r, Decode(r, {}), WithStage(w.lanes[k], r, t, Handling(Offs(t.items))), []);
      GoesOn(c, w, k, n, r, y, a, []);
      ReleaseBreaks(c, Next(c, w, a), k, n, r, y);
      X.DoomedFirst(BySession, c, w, a);
    }
  }

  // ------------------------------------------------------- the re-entry itself

  /** A message before a parked one. */
  predicate Behind(l: Lane, id: nat, y: nat) { Has(l, id) && l.tasks[id].Parked? && y < l.tasks[id].off }

  /** The lane after a parked message re-entered beside a running batch. */
  function ReEntering(l: Lane, id: nat, r: nat): Lane
    requires Has(l, id) && l.tasks[id].Parked?
  {
    l.(parked := None, tasks := l.tasks[id := Joining(l.tasks[id].off, l.epoch, Chain, r)])
  }

  lemma ReEntersBeside(c: Config, w: World, k: Key, id: nat, hop: HopChoice, r: nat)
    requires CanAct(c, w, k, ReEnter(id), hop) && w.members[k.member].running && KindOf(c, k.tp.topic).Batch? && w.LaneOf(k).run == Some(r)
    ensures Next(c, w, At(k, ReEnter(id), hop)) == w.(lanes := w.lanes[k := ReEntering(w.LaneOf(k), id, r)])
  {
    X.QuietNext(c, w, k, ReEnter(id), hop);
  }

  lemma ReEnteredWaits(c: Config, w: World, w': World, k: Key, id: nat, r: nat, y: nat)
    requires X.Able(c, w, k) && MembersOk(w) && w.members[k.member].running && KindOf(c, k.tp.topic).Batch?
    requires Has(w.LaneOf(k), id) && w.LaneOf(k).tasks[id].Parked? && w.LaneOf(k).batch == [] && id != r
    requires w' == w.(lanes := w.lanes[k := ReEntering(w.LaneOf(k), id, r)]) && LeftOut(w, k.tp, y) && y < w.LaneOf(k).tasks[id].off
    ensures Waits(c, w', k, id, r, y)
    ensures MayEnd(c, w, k, r, y) ==> MayEnd(c, w', k, r, y)
    ensures MayGiveUp(w.LaneOf(k), r) ==> MayGiveUp(w'.lanes[k], r)
  {
    X.StillLeftOut(w, w', k.tp, [], y);
    assert w'.Log(k.tp) == w.Log(k.tp);
    assert forall x :: X.HasDestination(c, w, k, x) ==> X.HasDestination(c, w', k, x);
  }

  /**
   * A parked message that re-enters beside a running batch, over an earlier
   * one nothing accounts for: clean steps lead to a commit past that one if
   * the batch can run to its end without it, or is one of an earlier session
   * that can still be given up.
   */
  lemma UncleanReEntryBreaks(c: Config, w: World, k: Key, id: nat, hop: HopChoice, y: nat)
    requires ConfigOk(c) && WorldOk(BySession, c, w) && CanAct(c, w, k, ReEnter(id), hop)
    requires w.members[k.member].running && KindOf(c, k.tp.topic).Batch? && w.LaneOf(k).run.Some?
    requires LeftOut(w, k.tp, y) && Behind(w.LaneOf(k), id, y)
    requires MayEnd(c, w, k, w.LaneOf(k).run.value, y) || MayGiveUp(w.LaneOf(k), w.LaneOf(k).run.value)
    ensures X.Doomed(BySession, c, Next(c, w, At(k, ReEnter(id), hop)))
  {
    var l, r := w.LaneOf(k), w.LaneOf(k).run.value;
    LaneAlways(BySession, c, w, k);
    assert l.batch == [];
    ReEntersBeside(c, w, k, id, hop, r);
    var w' := Next(c, w, At(k, ReEnter(id), hop));
    ReEnteredWaits(c, w, w', k, id, r, y);
    if MayEnd(c, w, k, r, y) { EndBreaks(c, w', k, id, r, y); } else { GiveUpBreaks(c, w', k, id, r, y); }
  }

  // --------------------------------------------------------- the resume itself

  /** A partition that delivers beside a running batch. */
  ghost predicate Beside(c: Config, w: World, k: Key, r: nat, y: nat) {
    && X.Able(c, w, k) && MembersOk(w) && X.Opened(w, k) && KindOf(c, k.tp.topic).Batch?
    && k in w.lanes && w.lanes[k].batch == [] && w.lanes[k].run == Some(r) && r < w.lanes[k].nextId
    && MayEnd(c, w, k, r, y) && LeftOut(w, k.tp, y) && y < w.lanes[k].next.value
  }

  /** The lane after the next message was delivered. */
  function Delivering(l: Lane, r: nat): Lane
    requires l.next.Some?
  {
    l.(next := Some(l.next.value + 1), nextId := l.nextId + 1, front := Some(l.nextId),
       tasks := l.tasks[l.nextId := Joining(l.next.value, l.epoch, Delivery, r)])
  }

  lemma DeliversBeside(c: Config, w: World, k: Key, r: nat, rec: Rec, y: nat)
    requires Beside(c, w, k, r, y) && X.ComesNext(c, w, k, rec) && w.lanes[k].next.value < |w.Log(k.tp)|
    ensures var a := At(k, Deliver(Now), X.HOP);
            Can(c, w, a) && Next(c, w, a) == w.(lanes := w.lanes[k := Delivering(w.lanes[k], r)])
  {
    assert CanAct(c, w, k, Deliver(Now), X.HOP);
    X.QuietNext(c, w, k, Deliver(Now), X.HOP);
  }

  lemma WaitsThere(c: Config, w: World, w': World, k: Key, r: nat, y: nat)
    requires Beside(c, w, k, r, y) && w' == w.(lanes := w.lanes[k := Delivering(w.lanes[k], r)])
    ensures Waits(c, w', k, w.lanes[k].nextId, r, y) && MayEnd(c, w', k, r, y)
  {
    X.StillLeftOut(w, w', k.tp, [], y);
    assert w'.lanes[k].tasks[r] == w.lanes[k].tasks[r] && w'.Log(k.tp) == w.Log(k.tp);
    assert forall x :: X.HasDestination(c, w, k, x) ==> X.HasDestination(c, w', k, x);
  }

  lemma BesideBreaks(c: Config, w: World, k: Key, r: nat, rec: Rec, y: nat)
    requires ConfigOk(c) && Beside(c, w, k, r, y) && X.ComesNext(c, w, k, rec) && w.lanes[k].next.value < |w.Log(k.tp)|
    ensures X.Doomed(BySession, c, w)
  {
    var a := At(k, Deliver(Now), X.HOP);
    DeliversBeside(c, w, k, r, rec, y);
    WaitsThere(c, w, Next(c, w, a), k, r, y);
    EndBreaks(c, Next(c, w, a), k, w.lanes[k].nextId, r, y);
    X.DoomedFirst(BySession, c, w, a);
  }

  /** If nothing is there to deliver, somebody produces it. */
  lemma BesideComes(c: Config, w: World, k: Key, r: nat, rec: Rec, y: nat)
    requires ConfigOk(c) && Beside(c, w, k, r, y) && X.ComesNext(c, w, k, rec) && w.lanes[k].next.value <= |w.Log(k.tp)|
    ensures X.Doomed(BySession, c, w)
  {
    if w.lanes[k].next.value < |w.Log(k.tp)| {
      BesideBreaks(c, w, k, r, rec, y);
    } else {
      var w1 := Appended(w, k.tp, rec);
      StillBeside(c, w, w1, k, r, rec, y);
      BesideBreaks(c, w1, k, r, rec, y);
      X.DoomedFirst(BySession, c, w, Append(k.tp, rec));
    }
  }

  lemma StillBeside(c: Config, w: World, w1: World, k: Key, r: nat, rec: Rec, y: nat)
    requires Beside(c, w, k, r, y) && w1 == Appended(w, k.tp, rec)
    ensures Beside(c, w1, k, r, y) && w1.Log(k.tp) == w.Log(k.tp) + [rec] && w1.LaneOf(k) == w.LaneOf(k)
  {
    assert w1.Log(k.tp) == w.Log(k.tp) + [rec];
    X.StillLeftOut(w, w1, k.tp, [], y);
    forall x: nat | X.HasDestination(c, w, k, x) ensures X.HasDestination(c, w1, k, x) {
      assert w1.Log(k.tp)[x] == w.Log(k.tp)[x];
    }
  }

  /** A lane whose parked message is unguarded, beside a running batch. */
  lemma LaneBeside(k: Kind, init: nat, high: nat, S: set<nat>, l: Lane, id: nat, y: nat)
    requires LaneOk(k, true, false, init, high, S, l) && k.Batch? && l.run.Some? && Guards(k, S, l, id) && y in FrontOffs(l)
    requires Has(l, id) && l.tasks[id].Closing?
    ensures var l', r := E.ResumedLane(l, id), l.run.value;
            && l'.batch == [] && l'.run == Some(r) && r < l'.nextId && r in l'.tasks && l'.tasks[r] == l.tasks[r]
            && l'.tasks[r].Run? && StageOk(l'.tasks[r]) && l'.tasks[r].items != []
  {
    assert TaskOk(k, init, high, S, l, l.run.value, l.tasks[l.run.value]);
  }

  /**
   * Also beside a running batch: a chain that resumes the partition over a
   * parked message nothing accounts for. Provided that batch can run to its
   * end and does not hold the message itself, clean steps lead to a commit
   * past it.
   */
  lemma UncleanResumeBreaks(c: Config, w: World, k: Key, id: nat, hop: HopChoice, rec: Rec, y: nat)
    requires ConfigOk(c) && WorldOk(BySession, c, w) && CanAct(c, w, k, Event.Resume(id), hop)
    requires w.members[k.member].running && X.ComesNext(c, w, k, rec) && KindOf(c, k.tp.topic).Batch?
    requires Guards(KindOf(c, k.tp.topic), w.Accounted(k.tp), w.LaneOf(k), id)
    requires w.LaneOf(k).run.Some? && MayEnd(c, w, k, w.LaneOf(k).run.value, y)
    requires y in FrontOffs(w.LaneOf(k)) && LeftOut(w, k.tp, y)
    ensures X.Doomed(BySession, c, Next(c, w, At(k, Event.Resume(id), hop)))
  {
    var l, kind := w.LaneOf(k), KindOf(c, k.tp.topic);
    LaneAlways(BySession, c, w, k);
    X.GuardedMessage(kind, w.Init(k.tp), |w.Log(k.tp)|, w.Accounted(k.tp), l, id, y);
    X.ResumedIsOpen(kind, w.Accounted(k.tp), l, id);
    LaneBeside(kind, w.Init(k.tp), |w.Log(k.tp)|, w.Accounted(k.tp), l, id, y);
    X.ResumeOpens(c, w, k, id, hop);
    ResumedBeside(c, w, Next(c, w, At(k, Event.Resume(id), hop)), k, E.ResumedLane(l, id), rec, y);
  }

  lemma ResumedBeside(c: Config, w: World, w': World, k: Key, l': Lane, rec: Rec, y: nat)
    requires ConfigOk(c) && MembersOk(w) && X.Able(c, w, k) && w.members[k.member].running && X.ComesNext(c, w, k, rec) && KindOf(c, k.tp.topic).Batch?
    requires w' == w.(lanes := w.lanes[k := l']) && l'.next == w.LaneOf(k).next && !l'.paused && RunsHaveItems(l')
    requires l'.run.Some? && l'.run == w.LaneOf(k).run && l'.batch == [] && l'.run.value < l'.nextId
    requires l'.run.value in l'.tasks && MayEnd(c, w, k, l'.run.value, y) && l'.tasks[l'.run.value] == w.LaneOf(k).tasks[l'.run.value]
    requires l'.front.Some? && l'.front.value in l'.tasks && !HoldsDelivery(l'.tasks[l'.front.value])
    requires y < l'.next.value <= |w.Log(k.tp)| && LeftOut(w, k.tp, y)
    ensures X.Doomed(BySession, c, w')
  {
    assert w'.LaneOf(k) == l' && w'.Log(k.tp) == w.Log(k.tp);
    X.StillLeftOut(w, w', k.tp, [], y);
    assert forall x :: X.HasDestination(c, w, k, x) ==> X.HasDestination(c, w', k, x);
    BesideComes(c, w', k, l'.run.value, rec, y);
  }
}
