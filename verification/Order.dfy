/**
 * The promise by order alone: a message goes to a handler, or into a batch,
 * only when every earlier one is accounted for or in that batch. It needs
 * nothing of sessions, pauses or revocations, and it is exact.
 */
module Order {
  import opened Basics
  import opened Lanes
  import opened LaneSafety
  import opened LaneSteps
  import E = EachLanes
  import B = BatchLanes

  /** The message a step hands to a handler or puts into a batch. */
  function Entering(k: Kind, running: bool, l: Lane, e: Event): Option<nat> {
    var free := k.Each? || l.run.None?;
    match e
    case Deliver(how) => if running && l.next.Some? && (how.Unroutable? || (how.Now? && free)) then l.next else None
    case Wake(id) => if Has(l, id) && l.tasks[id].Waiting? && !Lost(running, l, l.tasks[id].epoch) && free then Some(l.tasks[id].off) else None
    case ReEnter(id) => if Has(l, id) && l.tasks[id].Parked? && running && free then Some(l.tasks[id].off) else None
    case JoinWake(id) => if Has(l, id) && l.tasks[id].Joining? && !Lost(running, l, l.tasks[id].epoch) && k.Batch? then Some(l.tasks[id].off) else None
    case _ => None
  }

  /**
   * Nothing before the entering message is left behind. A message that belongs
   * to nobody and has nowhere to go (its offset is in `dead`) enters as it
   * likes: it never gets further, and stops its consumer.
   */
  ghost predicate InOrder(k: Kind, init: nat, dead: set<nat>, S: set<nat>, running: bool, l: Lane, e: Event) {
    var off := Entering(k, running, l, e);
    off.Some? && !(e.Deliver? && e.how.Unroutable? && off.value in dead) ==> Covered(init, S, off.value, Offs(l.batch))
  }

  // ------------------------------------------------------ the weak invariant

  /** The run of a message of nobody that has nowhere to go. */
  predicate Stuck(dead: set<nat>, t: Task)
    requires t.Run?
  {
    && |t.items| == 1 && t.items[0].off in dead && t.stage == Salvaging([t.items[0].off], [])
    && t.handled == [] && t.forwarded == []
  }

  ghost predicate WeakTask(init: nat, high: nat, dead: set<nat>, S: set<nat>, t: Task) {
    match t
    case Waiting(off, _, _) => off < high
    case Parked(off, _, _, _) => off < high
    case Joining(off, _, _, _) => off < high
    case Run(items, _, _, _, _, _) =>
      items != [] && Last(items) < high && StageOk(t) && Within(high, items) && (Stuck(dead, t) || Ledger(init, S, t, Open(t)))
    case Closing(_) => true
    case Transaction(run, items, salvaged, offs) =>
      && items != [] && Last(items) < high && Within(high, items) && Covered(init, S, Last(items) + 1, offs)
      && multiset(Offs(items)) == multiset(salvaged) + multiset(offs)
  }

  ghost predicate Within(high: nat, items: seq<Item>) { forall i :: 0 <= i < |items| ==> items[i].off < high }

  /** Whatever runs, and what is collected to run, has everything before it accounted for or with it. */
  ghost predicate WeakLane(k: Kind, running: bool, init: nat, high: nat, dead: set<nat>, S: set<nat>, l: Lane) {
    && (forall id :: id in l.tasks ==> id < l.nextId && WeakTask(init, high, dead, S, l.tasks[id]))
    && (l.batch != [] ==> running && k.Batch? && Within(high, l.batch) && Covered(init, S, Last(l.batch) + 1, Offs(l.batch)))
  }

  lemma WeakMonotone(k: Kind, running: bool, init: nat, high: nat, dead: set<nat>, S: set<nat>, high': nat, dead': set<nat>, S': set<nat>, l: Lane)
    requires WeakLane(k, running, init, high, dead, S, l) && high <= high' && dead <= dead' && S <= S'
    ensures WeakLane(k, running, init, high', dead', S', l)
  {
    forall id | id in l.tasks ensures WeakTask(init, high', dead', S', l.tasks[id]) { assert WeakTask(init, high, dead, S, l.tasks[id]); }
  }

  lemma WeakHasItems(k: Kind, running: bool, init: nat, high: nat, dead: set<nat>, S: set<nat>, l: Lane)
    requires WeakLane(k, running, init, high, dead, S, l)
    ensures RunsHaveItems(l)
  {
    forall id | id in l.tasks && l.tasks[id].Run? ensures l.tasks[id].items != [] { assert WeakTask(init, high, dead, S, l.tasks[id]); }
  }

  lemma WeakStops(k: Kind, running: bool, init: nat, high: nat, dead: set<nat>, S: set<nat>, l: Lane)
    requires WeakLane(k, running, init, high, dead, S, l)
    ensures WeakLane(k, false, init, high, dead, S, Stopped(l))
  {
    forall id | id in Stopped(l).tasks ensures WeakTask(init, high, dead, S, Stopped(l).tasks[id]) { assert WeakTask(init, high, dead, S, l.tasks[id]); }
  }

  /** One task changed, or went. */
  lemma WeakSwap(k: Kind, running: bool, init: nat, high: nat, dead: set<nat>, S: set<nat>, l: Lane, S': set<nat>, l': Lane, own: nat)
    requires WeakLane(k, running, init, high, dead, S, l) && S <= S' && l'.nextId >= l.nextId
    requires own in l'.tasks ==> own < l'.nextId && WeakTask(init, high, dead, S', l'.tasks[own])
    requires forall id :: id in l'.tasks && id != own ==> id in l.tasks && l'.tasks[id] == l.tasks[id]
    requires l'.batch != [] ==> running && k.Batch? && Within(high, l'.batch) && Covered(init, S', Last(l'.batch) + 1, Offs(l'.batch))
    ensures WeakLane(k, running, init, high, dead, S', l')
  {
    forall id | id in l'.tasks && id != own ensures WeakTask(init, high, dead, S', l'.tasks[id]) {
      assert WeakTask(init, high, dead, S, l.tasks[id]);
    }
  }

  /** What a lane knows of its session includes what it needs here. */
  lemma StrongIsWeak(k: Kind, running: bool, abandoned: bool, init: nat, high: nat, dead: set<nat>, S: set<nat>, l: Lane)
    requires LaneOk(k, running, abandoned, init, high, S, l)
    ensures WeakLane(k, running, init, high, dead, S, l)
  {
    forall id | id in l.tasks ensures id < l.nextId && WeakTask(init, high, dead, S, l.tasks[id]) {
      assert TaskOk(k, init, high, S, l, id, l.tasks[id]);
    }
  }

  // ------------------------------------------------- what an ordered step keeps

  /** The messages of a batch with the entering one. */
  lemma WithItem(init: nat, high: nat, S: set<nat>, batch: seq<Item>, item: Item)
    requires Covered(init, S, item.off, Offs(batch)) && Within(high, batch) && item.off < high
    ensures var items := batch + [item];
            Covered(init, S, Last(items) + 1, Offs(items)) && Within(high, items) && Last(items) == item.off
  {
    assert Offs(batch + [item]) == Offs(batch) + [item.off];
  }

  lemma NewRunWeak(init: nat, high: nat, dead: set<nat>, S: set<nat>, items: seq<Item>, origin: Origin)
    requires items != [] && Within(high, items) && Covered(init, S, Last(items) + 1, Offs(items))
    ensures WeakTask(init, high, dead, S, NewRun(items, origin))
  {
    assert Open(NewRun(items, origin)) == Offs(items);
  }

  lemma PushWeak(k: Kind, init: nat, high: nat, dead: set<nat>, S: set<nat>, l: Lane, id: nat, off: nat, origin: Origin)
    requires WeakLane(k, true, init, high, dead, S, l) && k.Batch? && id < l.nextId && off < high
    requires Covered(init, S, off, Offs(l.batch))
    ensures WeakLane(k, true, init, high, dead, S, Push(k.size, l, id, off, origin))
  {
    var items := l.batch + [Item(off, l.epoch)];
    WithItem(init, high, S, l.batch, Item(off, l.epoch));
    NewRunWeak(init, high, dead, S, items, origin);
    WeakSwap(k, true, init, high, dead, S, l, S, Push(k.size, l, id, off, origin), id);
  }

  /** Handled one by one: a run of its own. */
  lemma EnterAlone(init: nat, high: nat, dead: set<nat>, S: set<nat>, l: Lane, id: nat, off: nat, origin: Origin)
    requires WeakLane(Each, true, init, high, dead, S, l) && id < l.nextId && off < high
    requires Covered(init, S, off, [])
    ensures WeakLane(Each, true, init, high, dead, S, Enter(Each, l, id, off, origin))
  {
    WithItem(init, high, S, [], Item(off, l.epoch));
    NothingBefore([Item(off, l.epoch)]);
    NewRunWeak(init, high, dead, S, [Item(off, l.epoch)], origin);
    WeakSwap(Each, true, init, high, dead, S, l, S, Enter(Each, l, id, off, origin), id);
  }

  /** A batch is running: the message waits for it. */
  lemma EnterWaits(k: Kind, init: nat, high: nat, dead: set<nat>, S: set<nat>, l: Lane, id: nat, off: nat, origin: Origin)
    requires WeakLane(k, true, init, high, dead, S, l) && id < l.nextId && off < high && k.Batch? && l.run.Some?
    ensures WeakLane(k, true, init, high, dead, S, Enter(k, l, id, off, origin))
  {
    WeakSwap(k, true, init, high, dead, S, l, S, Enter(k, l, id, off, origin), id);
  }

  lemma EnterWeak(k: Kind, init: nat, high: nat, dead: set<nat>, S: set<nat>, l: Lane, id: nat, off: nat, origin: Origin)
    requires WeakLane(k, true, init, high, dead, S, l) && id < l.nextId && off < high
    requires k.Each? || l.run.None? ==> Covered(init, S, off, Offs(l.batch))
    ensures WeakLane(k, true, init, high, dead, S, Enter(k, l, id, off, origin))
  {
    if k.Each? {
      EnterAlone(init, high, dead, S, l, id, off, origin);
    } else if l.run.None? {
      PushWeak(k, init, high, dead, S, l, id, off, origin);
    } else {
      EnterWaits(k, init, high, dead, S, l, id, off, origin);
    }
  }

  lemma DeliverWeak(k: Kind, running: bool, init: nat, high: nat, dead: set<nat>, S: set<nat>, l: Lane, how: Admission)
    requires WeakLane(k, running, init, high, dead, S, l) && Enabled(k, running, high, l, Deliver(how))
    requires InOrder(k, init, dead, S, running, l, Deliver(how))
    ensures WeakLane(k, running, init, high, dead, S, Delivered(k, running, l, how))
  {
    var off, id := l.next.value, l.nextId;
    var l1 := l.(next := Some(off + 1), nextId := id + 1, front := Some(id));
    WeakSwap(k, running, init, high, dead, S, l, S, l1, id);
    if running {
      if how.Now? {
        EnterWeak(k, init, high, dead, S, l1, id, off, Delivery);
      } else {
        if how.Unroutable? { UnroutableWeak(init, high, dead, S, off, l.epoch); }
        WeakSwap(k, running, init, high, dead, S, l, S, Delivered(k, running, l, how), id);
      }
    } else {
      WeakSwap(k, running, init, high, dead, S, l, S, Delivered(k, running, l, how), id);
    }
  }

  lemma UnroutableWeak(init: nat, high: nat, dead: set<nat>, S: set<nat>, off: nat, epoch: nat)
    requires off < high && (off in dead || Covered(init, S, off, []))
    ensures WeakTask(init, high, dead, S, Run([Item(off, epoch)], Delivery, true, Salvaging([off], []), [], []))
  {
    assert [off] + [] == [off] && Offs([Item(off, epoch)]) == [off];
  }

  /** Steps that only end waits, or hand the message on. */
  lemma WaitWeak(k: Kind, running: bool, abandoned: bool, init: nat, high: nat, dead: set<nat>, S: set<nat>, l: Lane, e: Event)
    requires WeakLane(k, running, init, high, dead, S, l) && Enabled(k, running, high, l, e) && RunsHaveItems(l)
    requires InOrder(k, init, dead, S, running, l, e) && (e.Wake? || e.ReEnter? || e.JoinWake?)
    ensures WeakLane(k, running, init, high, dead, S, Step(k, running, abandoned, high, l, e).lane)
  {
    var id := e.id;
    assert WeakTask(init, high, dead, S, l.tasks[id]);
    var l' := Step(k, running, abandoned, high, l, e).lane;
    match e
    case Wake(_) =>
      if Lost(running, l, l.tasks[id].epoch) { WeakSwap(k, running, init, high, dead, S, l, S, l', id); }
      else { EnterWeak(k, init, high, dead, S, l, id, l.tasks[id].off, Delivery); }
    case ReEnter(_) =>
      var l1 := l.(parked := None);
      WeakSwap(k, running, init, high, dead, S, l, S, l1, id);
      if !running { WeakSwap(k, running, init, high, dead, S, l, S, l', id); }
      else { EnterWeak(k, init, high, dead, S, l1, id, l.tasks[id].off, Chain); }
    case JoinWake(_) =>
      if Lost(running, l, l.tasks[id].epoch) || k.Each? { WeakSwap(k, running, init, high, dead, S, l, S, l', id); }
      else { PushWeak(k, init, high, dead, S, l, id, l.tasks[id].off, l.tasks[id].origin); }
  }

  lemma FlushWeak(k: Kind, running: bool, init: nat, high: nat, dead: set<nat>, S: set<nat>, l: Lane)
    requires WeakLane(k, running, init, high, dead, S, l)
    ensures WeakLane(k, running, init, high, dead, S, FlushBatch(l))
  {
    if l.batch != [] {
      NewRunWeak(init, high, dead, S, l.batch, Flush);
      WeakSwap(k, running, init, high, dead, S, l, S, FlushBatch(l), l.nextId);
    }
  }

  lemma RevokeWeak(k: Kind, running: bool, init: nat, high: nat, dead: set<nat>, S: set<nat>, l: Lane)
    requires WeakLane(k, running, init, high, dead, S, l)
    ensures WeakLane(k, running, init, high, dead, S, Revoked(l))
  {
    FlushWeak(k, running, init, high, dead, S, l);
    var f, l' := FlushBatch(l), Revoked(l);
    forall id | id in l'.tasks ensures id < l'.nextId && WeakTask(init, high, dead, S, l'.tasks[id]) { assert WeakTask(init, high, dead, S, f.tasks[id]); }
  }

  /** A run in its next stage, or over. */
  ghost predicate RunGoesOn(abandoned: bool, init: nat, S': set<nat>, l: Lane, id: nat, t: Task, l': Lane) {
    && t.Run? && l'.batch == l.batch && l'.nextId == l.nextId
    && (forall o :: o in l'.tasks && o != id ==> o in l.tasks && l'.tasks[o] == l.tasks[o])
    && (id in l'.tasks && !l'.tasks[id].Closing? ==>
          l'.tasks[id].Run? && l'.tasks[id].items == t.items && StageOk(l'.tasks[id]) && Ledger(init, S', l'.tasks[id], Open(l'.tasks[id])))
  }

  lemma RunWeak(k: Kind, running: bool, abandoned: bool, init: nat, high: nat, dead: set<nat>, S: set<nat>, l: Lane, S': set<nat>, id: nat, l': Lane)
    requires WeakLane(k, running, init, high, dead, S, l) && S <= S' && Has(l, id) && l.tasks[id].Run?
    requires RunGoesOn(abandoned, init, S', l, id, l.tasks[id], l')
    ensures WeakLane(k, running, init, high, dead, S', l')
  {
    assert WeakTask(init, high, dead, S, l.tasks[id]);
    if l.batch != [] { CoveredGrows(init, S, S', Last(l.batch) + 1, Offs(l.batch)); }
    WeakSwap(k, running, init, high, dead, S, l, S', l', id);
  }

  /** Where a run goes when nothing is left to ask the handler, to forward, or to do. */
  lemma StagesGoOn(abandoned: bool, init: nat, S: set<nat>, l: Lane, id: nat, t: Task, rest: seq<nat>)
    requires Has(l, id) && l.tasks[id].Run? && t.Run? && t.items == l.tasks[id].items && t.items != [] && Ledger(init, S, t, rest)
    ensures rest == [] ==> RunGoesOn(abandoned, init, S, l, id, l.tasks[id], ToCommit(abandoned, l, id, t))
    ensures RunGoesOn(abandoned, init, S, l, id, l.tasks[id], ToForward(abandoned, l, id, t, rest))
    ensures t.handled == [] ==> RunGoesOn(abandoned, init, S, l, id, l.tasks[id], ToHandler(abandoned, l, id, t, rest))
  {
  }

  lemma StageGoesOn(abandoned: bool, init: nat, S: set<nat>, l: Lane, id: nat, t: Task, stage: Stage)
    requires Has(l, id) && l.tasks[id].Run? && t.Run? && t.items == l.tasks[id].items
    requires var t' := t.(stage := stage); StageOk(t') && Ledger(init, S, t', Open(t'))
    ensures RunGoesOn(abandoned, init, S, l, id, l.tasks[id], WithStage(l, id, t, stage))
  {
  }

  lemma FinishGoesOn(abandoned: bool, init: nat, S: set<nat>, l: Lane, id: nat)
    requires Has(l, id) && l.tasks[id].Run? && l.tasks[id].items != []
    ensures RunGoesOn(abandoned, init, S, l, id, l.tasks[id], FinishRun(l, id, l.tasks[id]))
  {
  }

  lemma DecodeWeak(k: Kind, running: bool, abandoned: bool, init: nat, high: nat, dead: set<nat>, S: set<nat>, l: Lane, id: nat, bad: set<nat>)
    requires WeakLane(k, running, init, high, dead, S, l) && Enabled(k, running, high, l, Decode(id, bad)) && l.tasks[id].items != []
    ensures WeakLane(k, running, init, high, dead, S, Decoded(abandoned, l, id, l.tasks[id], bad))
  {
    var t := l.tasks[id];
    assert WeakTask(init, high, dead, S, t);
    var l' := Decoded(abandoned, l, id, t, bad);
    if abandoned {
      FinishGoesOn(abandoned, init, S, l, id);
    } else {
      DecodeSplits(init, S, t, bad);
      var failed, decoded := Select(Offs(t.items), bad, true), Select(Offs(t.items), bad, false);
      if failed == [] {
        NothingBefore(decoded);
        StagesGoOn(abandoned, init, S, l, id, t, decoded);
      }
    }
    RunWeak(k, running, abandoned, init, high, dead, S, l, S, id, l');
  }

  lemma SalvageWeak(k: Kind, running: bool, abandoned: bool, init: nat, high: nat, dead: set<nat>, S: set<nat>, l: Lane, id: nat, bad: seq<nat>, decoded: seq<nat>)
    requires WeakLane(k, running, init, high, dead, S, l) && Has(l, id) && l.tasks[id].Run? && l.tasks[id].items != []
    requires l.tasks[id].stage == Salvaging(bad, decoded) && bad != [] && bad[0] !in dead
    ensures var t1 := l.tasks[id].(forwarded := l.tasks[id].forwarded + [bad[0]]);
            RunGoesOn(abandoned, init, Grow(S, [bad[0]]), l, id, l.tasks[id],
                      if bad[1..] == [] then ToHandler(abandoned, l, id, t1, decoded) else WithStage(l, id, t1, Salvaging(bad[1..], decoded)))
  {
    var t := l.tasks[id];
    assert WeakTask(init, high, dead, S, t);
    var S', t1 := Grow(S, [bad[0]]), t.(forwarded := t.forwarded + [bad[0]]);
    HopMoves(init, S, t, bad + decoded, bad[1..] + decoded, bad[0]);
    if bad[1..] == [] {
      assert bad[1..] + decoded == decoded;
      StagesGoOn(abandoned, init, S', l, id, t1, decoded);
    } else {
      StageGoesOn(abandoned, init, S', l, id, t1, Salvaging(bad[1..], decoded));
    }
  }

  lemma ForwardedWeak(k: Kind, running: bool, abandoned: bool, init: nat, high: nat, dead: set<nat>, S: set<nat>, l: Lane, id: nat, left: seq<nat>)
    requires WeakLane(k, running, init, high, dead, S, l) && Has(l, id) && l.tasks[id].Run? && l.tasks[id].items != []
    requires l.tasks[id].stage == Forwarding(left) && left != []
    ensures var t1 := l.tasks[id].(forwarded := l.tasks[id].forwarded + [left[0]]);
            RunGoesOn(abandoned, init, Grow(S, [left[0]]), l, id, l.tasks[id], ToForward(abandoned, l, id, t1, left[1..]))
  {
    var t := l.tasks[id];
    assert WeakTask(init, high, dead, S, t);
    HopMoves(init, S, t, left, left[1..], left[0]);
    StagesGoOn(abandoned, init, Grow(S, [left[0]]), l, id, t.(forwarded := t.forwarded + [left[0]]), left[1..]);
  }

  lemma AckWeak(k: Kind, running: bool, abandoned: bool, init: nat, high: nat, dead: set<nat>, S: set<nat>, l: Lane, id: nat)
    requires WeakLane(k, running, init, high, dead, S, l) && CanHop(l, id) && l.tasks[id].items != [] && Hopping(l, id) !in dead
    ensures WeakLane(k, running, init, high, dead, Grow(S, Acked(abandoned, l, id).settles), Acked(abandoned, l, id).lane)
  {
    var stage := l.tasks[id].stage;
    if stage.Salvaging? {
      SalvageWeak(k, running, abandoned, init, high, dead, S, l, id, stage.bad, stage.decoded);
    } else {
      ForwardedWeak(k, running, abandoned, init, high, dead, S, l, id, stage.left);
    }
    RunWeak(k, running, abandoned, init, high, dead, S, l, Grow(S, [Hopping(l, id)]), id, Acked(abandoned, l, id).lane);
  }

  lemma HandledWeak(k: Kind, running: bool, abandoned: bool, init: nat, high: nat, dead: set<nat>, S: set<nat>, l: Lane, id: nat, out: Outcome)
    requires WeakLane(k, running, init, high, dead, S, l) && Enabled(k, running, high, l, Handler(id, out))
    ensures WeakLane(k, running, init, high, dead, Grow(S, Handled(abandoned, l, id, out).settles), Handled(abandoned, l, id, out).lane)
  {
    var t, r := l.tasks[id], Handled(abandoned, l, id, out);
    assert WeakTask(init, high, dead, S, t);
    var decoded := t.stage.decoded;
    var S' := Grow(S, r.settles);
    assert Grow(S, []) == S;
    if abandoned {
      FinishGoesOn(abandoned, init, S', l, id);
    } else {
      match out
      case Resolved =>
        VerdictMoves(init, S, t, decoded, decoded, []);
        StagesGoOn(abandoned, init, S', l, id, t.(handled := t.handled + decoded), []);
      case Threw => StagesGoOn(abandoned, init, S, l, id, t, decoded);
      case Listed(names) =>
        if Foreign(names, decoded) { FinishGoesOn(abandoned, init, S', l, id); } else {
          var fine, named := Select(decoded, names, false), Select(decoded, names, true);
          SelectSplits(decoded, names);
          VerdictMoves(init, S, t, decoded, fine, named);
          StagesGoOn(abandoned, init, S', l, id, t.(handled := t.handled + fine), named);
        }
      case _ => FinishGoesOn(abandoned, init, S', l, id);
    }
    RunWeak(k, running, abandoned, init, high, dead, S, l, S', id, r.lane);
  }

  // ------------------------------------------------------------- every step

  lemma QuietWeak(k: Kind, running: bool, abandoned: bool, init: nat, high: nat, dead: set<nat>, S: set<nat>, l: Lane, e: Event)
    requires WeakLane(k, running, init, high, dead, S, l) && Enabled(k, running, high, l, e) && RunsHaveItems(l)
    requires InOrder(k, init, dead, S, running, l, e) && IsQuiet(e)
    ensures WeakLane(k, running, init, high, dead, S, Step(k, running, abandoned, high, l, e).lane)
  {
    var l' := Step(k, running, abandoned, high, l, e).lane;
    match e
    case Assign(start) => WeakSwap(k, running, init, high, dead, S, l, S, l', l.nextId);
    case Revoke => RevokeWeak(k, running, init, high, dead, S, l);
    case Deliver(how) => DeliverWeak(k, running, init, high, dead, S, l, how);
    case MaxWait => FlushWeak(k, running, init, high, dead, S, l);
    case Grant(id) =>
      assert WeakTask(init, high, dead, S, l.tasks[id]);
      WeakSwap(k, running, init, high, dead, S, l, S, l', id);
    case Drop(id) => WeakSwap(k, running, init, high, dead, S, l, S, l', id);
    case Resume(id) => WeakSwap(k, running, init, high, dead, S, l, S, l', id);
    case _ => WaitWeak(k, running, abandoned, init, high, dead, S, l, e);
  }

  lemma BeginWeak(k: Kind, running: bool, init: nat, high: nat, dead: set<nat>, S: set<nat>, l: Lane, id: nat)
    requires WeakLane(k, running, init, high, dead, S, l) && Has(l, id) && l.tasks[id].Run? && l.tasks[id].stage.Handling?
    ensures WeakLane(k, running, init, high, dead, S, Begun(l, id))
  {
    assert WeakTask(init, high, dead, S, l.tasks[id]);
    WeakSwap(k, running, init, high, dead, S, l, S, Begun(l, id), l.nextId);
  }

  /** A transaction that ended, taking its messages along or not. */
  lemma EndWeak(k: Kind, running: bool, init: nat, high: nat, dead: set<nat>, S: set<nat>, S': set<nat>, l: Lane, id: nat)
    requires WeakLane(k, running, init, high, dead, S, l) && S <= S'
    ensures WeakLane(k, running, init, high, dead, S', l.(tasks := l.tasks - {id}))
  {
    if l.batch != [] { CoveredGrows(init, S, S', Last(l.batch) + 1, Offs(l.batch)); }
    WeakSwap(k, running, init, high, dead, S, l, S', l.(tasks := l.tasks - {id}), id);
  }

  /** The offset it commits has everything below it accounted for, what it takes along included. */
  lemma TakesWeak(k: Kind, running: bool, init: nat, high: nat, dead: set<nat>, S: set<nat>, l: Lane, id: nat)
    requires WeakLane(k, running, init, high, dead, S, l) && Has(l, id) && l.tasks[id].Transaction?
    ensures var t := l.tasks[id]; t.items != [] && Last(t.items) < high && Covered(init, Grow(S, t.offs), Last(t.items) + 1, [])
  {
    assert WeakTask(init, high, dead, S, l.tasks[id]);
  }

  lemma TransactionWeak(k: Kind, running: bool, abandoned: bool, init: nat, high: nat, dead: set<nat>, S: set<nat>, l: Lane, e: Event)
    requires WeakLane(k, running, init, high, dead, S, l) && Enabled(k, running, high, l, e) && RunsHaveItems(l)
    requires e.TransactionBegin? || e.TransactionCommit? || e.TransactionAbort?
    ensures var r := Step(k, running, abandoned, high, l, e);
            WeakLane(k, running, init, high, dead, Grow(S, r.takes), r.lane) && CommitCovered(init, high, Grow(S, r.takes), r)
  {
    assert Grow(S, []) == S;
    match e
    case TransactionBegin(id) => BeginWeak(k, running, init, high, dead, S, l, id);
    case TransactionCommit(id) =>
      TakesWeak(k, running, init, high, dead, S, l, id);
      EndWeak(k, running, init, high, dead, S, Grow(S, l.tasks[id].offs), l, id);
    case TransactionAbort(id) => EndWeak(k, running, init, high, dead, S, S, l, id);
  }

  /** What a step commits has nothing unaccounted for below it. */
  ghost predicate CommitCovered(init: nat, high: nat, S: set<nat>, r: Result) {
    r.commit.Some? ==> r.commit.value <= high && Covered(init, S, r.commit.value, [])
  }

  lemma RunStepWeak(k: Kind, running: bool, abandoned: bool, init: nat, high: nat, dead: set<nat>, S: set<nat>, l: Lane, e: Event)
    requires WeakLane(k, running, init, high, dead, S, l) && Enabled(k, running, high, l, e) && RunsHaveItems(l)
    requires e.Decode? || e.HopAcked? || e.HopFailed? || e.Handler? || e.CommitDone?
    requires e.HopAcked? ==> Hopping(l, e.id) !in dead
    ensures var r := Step(k, running, abandoned, high, l, e);
            WeakLane(k, running, init, high, dead, Grow(S, r.settles), r.lane) && CommitCovered(init, high, Grow(S, r.settles), r)
  {
    assert Grow(S, []) == S;
    match e
    case Decode(id, bad) => DecodeWeak(k, running, abandoned, init, high, dead, S, l, id, bad);
    case HopAcked(id) => AckWeak(k, running, abandoned, init, high, dead, S, l, id);
    case HopFailed(id) =>
      FinishGoesOn(abandoned, init, S, l, id);
      RunWeak(k, running, abandoned, init, high, dead, S, l, S, id, FinishRun(l, id, l.tasks[id]));
    case Handler(id, out) => HandledWeak(k, running, abandoned, init, high, dead, S, l, id, out);
    case CommitDone(id, landed) =>
      assert WeakTask(init, high, dead, S, l.tasks[id]);
      FinishGoesOn(abandoned, init, S, l, id);
      RunWeak(k, running, abandoned, init, high, dead, S, l, S, id, FinishRun(l, id, l.tasks[id]));
  }

  /** Every step in order keeps what a lane knows by order alone, whatever the sessions are like. */
  lemma StepWeak(k: Kind, running: bool, abandoned: bool, init: nat, high: nat, dead: set<nat>, S: set<nat>, l: Lane, e: Event)
    requires WeakLane(k, running, init, high, dead, S, l) && Enabled(k, running, high, l, e) && InOrder(k, init, dead, S, running, l, e)
    requires e.HopAcked? ==> Hopping(l, e.id) !in dead
    ensures RunsHaveItems(l)
    ensures var r := Step(k, running, abandoned, high, l, e);
            WeakLane(k, running && !r.stop, init, high, dead, Gains(S, r), After(r)) && CommitCovered(init, high, Gains(S, r), r)
  {
    WeakHasItems(k, running, init, high, dead, S, l);
    var r := Step(k, running, abandoned, high, l, e);
    assert Grow(S, []) == S && [] + r.takes == r.takes && r.settles + [] == r.settles;
    if IsQuiet(e) {
      QuietWeak(k, running, abandoned, init, high, dead, S, l, e);
      QuietIsQuiet(k, running, abandoned, high, l, e);
    } else if e.TransactionBegin? || e.TransactionCommit? || e.TransactionAbort? {
      TransactionWeak(k, running, abandoned, init, high, dead, S, l, e);
    } else {
      RunStepWeak(k, running, abandoned, init, high, dead, S, l, e);
      if r.stop { WeakStops(k, running, init, high, dead, Gains(S, r), r.lane); }
    }
  }

  // --------------------------------------------------- sessions are in order

  lemma EachInOrder(running: bool, abandoned: bool, init: nat, high: nat, dead: set<nat>, S: set<nat>, l: Lane, e: Event)
    requires LaneOk(Each, running, abandoned, init, high, S, l)
    requires Enabled(Each, running, high, l, e)
    ensures InOrder(Each, init, dead, S, running, l, e)
  {
    if Entering(Each, running, l, e).Some? {
      if e.Deliver? { E.NothingPending(init, high, S, l, e.how); } else { assert TaskOk(Each, init, high, S, l, e.id, l.tasks[e.id]); }
    }
  }

  lemma BatchInOrder(k: Kind, running: bool, abandoned: bool, init: nat, high: nat, dead: set<nat>, S: set<nat>, l: Lane, e: Event)
    requires k.Batch? && LaneOk(k, running, abandoned, init, high, S, l)
    requires Enabled(k, running, high, l, e) && Clean(k, S, running, l, e)
    ensures InOrder(k, init, dead, S, running, l, e)
  {
    if Entering(k, running, l, e).Some? {
      match e
      case Deliver(how) => B.DeliveryArrives(k, init, high, S, l, l.(next := Some(l.next.value + 1), nextId := l.nextId + 1, front := Some(l.nextId)));
      case Wake(id) => B.FrontArrives(k, init, high, S, l, id, l, Delivery);
      case ReEnter(id) => B.FrontArrives(k, init, high, S, l, id, l.(parked := None), Chain);
      case JoinWake(id) => B.FrontArrives(k, init, high, S, l, id, l, l.tasks[id].origin);
      case _ =>
    }
  }

  /** Where sessions are kept, every clean step is in order. */
  lemma CleanInOrder(k: Kind, running: bool, abandoned: bool, init: nat, high: nat, dead: set<nat>, S: set<nat>, l: Lane, e: Event)
    requires LaneOk(k, running, abandoned, init, high, S, l)
    requires Enabled(k, running, high, l, e) && Clean(k, S, running, l, e)
    ensures InOrder(k, init, dead, S, running, l, e)
  {
    if k.Each? { EachInOrder(running, abandoned, init, high, dead, S, l, e); } else { BatchInOrder(k, running, abandoned, init, high, dead, S, l, e); }
  }

  // ------------------------------------------------------------ two invariants

  /** How a lane is kept: with its sessions, by clean steps, or by order alone. */
  datatype Guard = BySession | ByOrder

  ghost predicate Good(g: Guard, k: Kind, running: bool, abandoned: bool, init: nat, high: nat, dead: set<nat>, S: set<nat>, l: Lane) {
    match g
    case BySession => LaneOk(k, running, abandoned, init, high, S, l)
    case ByOrder => WeakLane(k, running, init, high, dead, S, l)
  }

  ghost predicate Guarded(g: Guard, k: Kind, init: nat, dead: set<nat>, S: set<nat>, running: bool, l: Lane, e: Event) {
    match g
    case BySession => Clean(k, S, running, l, e)
    case ByOrder => InOrder(k, init, dead, S, running, l, e)
  }

  ghost predicate GoodAfter(g: Guard, k: Kind, running: bool, abandoned: bool, init: nat, high: nat, dead: set<nat>, S: set<nat>, r: Result) {
    Good(g, k, running && !r.stop, abandoned, init, high, dead, Gains(S, r), After(r)) && CommitCovered(init, high, Gains(S, r), r)
  }

  lemma GoodIsWeak(g: Guard, k: Kind, running: bool, abandoned: bool, init: nat, high: nat, dead: set<nat>, S: set<nat>, l: Lane)
    requires Good(g, k, running, abandoned, init, high, dead, S, l)
    ensures WeakLane(k, running, init, high, dead, S, l)
  {
    if g.BySession? { StrongIsWeak(k, running, abandoned, init, high, dead, S, l); }
  }

  lemma GoodMonotone(g: Guard, k: Kind, running: bool, abandoned: bool, init: nat, high: nat, dead: set<nat>, S: set<nat>, high': nat, dead': set<nat>, S': set<nat>, l: Lane)
    requires Good(g, k, running, abandoned, init, high, dead, S, l) && high <= high' && dead <= dead' && S <= S'
    ensures Good(g, k, running, abandoned, init, high', dead', S', l)
  {
    match g
    case BySession => Monotone(k, running, abandoned, init, high, S, high', S', l);
    case ByOrder => WeakMonotone(k, running, init, high, dead, S, high', dead', S', l);
  }

  lemma GoodStops(g: Guard, k: Kind, running: bool, abandoned: bool, init: nat, high: nat, dead: set<nat>, S: set<nat>, l: Lane)
    requires Good(g, k, running, abandoned, init, high, dead, S, l)
    ensures Good(g, k, false, abandoned, init, high, dead, S, Stopped(l))
  {
    match g
    case BySession => StopKeeps(k, running, abandoned, init, high, S, l);
    case ByOrder => WeakStops(k, running, init, high, dead, S, l);
  }

  lemma GoodStep(g: Guard, k: Kind, running: bool, abandoned: bool, init: nat, high: nat, dead: set<nat>, S: set<nat>, l: Lane, e: Event)
    requires Good(g, k, running, abandoned, init, high, dead, S, l)
    requires Enabled(k, running, high, l, e) && Guarded(g, k, init, dead, S, running, l, e)
    requires e.Assign? ==> e.start <= high && Covered(init, S, e.start, [])
    requires e.HopAcked? ==> Hopping(l, e.id) !in dead
    ensures RunsHaveItems(l) && GoodAfter(g, k, running, abandoned, init, high, dead, S, Step(k, running, abandoned, high, l, e))
  {
    match g
    case BySession => StepKeeps(k, running, abandoned, init, high, S, l, e);
    case ByOrder => StepWeak(k, running, abandoned, init, high, dead, S, l, e);
  }

  // ------------------------------------------------------ what a step settles

  lemma OpenBelow(init: nat, high: nat, dead: set<nat>, S: set<nat>, t: Task, x: nat)
    requires t.Run? && WeakTask(init, high, dead, S, t) && x in Open(t)
    ensures x in Offs(t.items) && x < high
  {
    assert multiset(Open(t))[x] > 0;
    assert x in multiset(Offs(t.items));
  }

  lemma OffsBelow(init: nat, high: nat, dead: set<nat>, S: set<nat>, t: Task, x: nat)
    requires t.Transaction? && WeakTask(init, high, dead, S, t) && x in t.offs
    ensures x in Offs(t.items) && x < high
  {
    assert multiset(t.offs)[x] > 0;
    assert x in multiset(Offs(t.items));
  }

  /** The run a step belongs to. */
  predicate OfRun(e: Event) { e.HopAcked? || e.Handler? }

  /** A step settles only messages its run had open, a hop only the one it forwarded, and a transaction takes only what its handler was given. */
  lemma SettlesOpen(k: Kind, running: bool, abandoned: bool, init: nat, high: nat, dead: set<nat>, S: set<nat>, l: Lane, e: Event)
    requires WeakLane(k, running, init, high, dead, S, l) && Enabled(k, running, high, l, e) && RunsHaveItems(l)
    ensures var r := Step(k, running, abandoned, high, l, e);
            && (r.settles != [] ==> OfRun(e))
            && (OfRun(e) ==> forall x :: x in r.settles ==> x in Open(l.tasks[e.id]) && x < high)
            && (e.HopAcked? ==> r.settles == [Hopping(l, e.id)])
            && (r.takes != [] ==> e.TransactionCommit?)
            && (e.TransactionCommit? ==> r.takes == l.tasks[e.id].offs && forall x :: x in r.takes ==> x < high)
  {
    if OfRun(e) {
      forall x | x in Open(l.tasks[e.id]) ensures x < high { OpenBelow(init, high, dead, S, l.tasks[e.id], x); }
    }
    if e.TransactionCommit? {
      forall x | x in l.tasks[e.id].offs ensures x < high { OffsBelow(init, high, dead, S, l.tasks[e.id], x); }
    }
  }
}
