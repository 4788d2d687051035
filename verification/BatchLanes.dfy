/** The session of a topic whose messages are handled in batches. */
module BatchLanes {
  import opened Basics
  import opened Lanes
  import opened LaneSafety

  ghost predicate BatchOk(k: Kind, init: nat, high: nat, S: set<nat>, l: Lane) {
    k.Batch? && Sound(k, init, high, S, l) && BatchSession(k, init, high, S, l)
  }

  // ------------------------------------------------ entering the pipeline

  /** A message of the open session, past its waits, about to be collected as activation `id`. */
  ghost predicate Arriving(k: Kind, init: nat, high: nat, S: set<nat>, l: Lane, id: nat, off: nat, origin: Origin) {
    && k.Batch? && k.size >= 1
    && origin != Flush && id < l.nextId && l.front == Some(id) && l.next == Some(off + 1)
    && off < high && l.parked.None? && (origin.Chain? ==> l.paused)
    && (l.run.Some? ==> l.run.value != id && l.run.value in l.tasks && l.tasks[l.run.value].Run?)
    && (forall o :: o in l.tasks && o != id ==> Bystander(k, init, high, S, l, o))
    && Covered(init, S, off, Offs(l.batch) + RunOffs(l))
    && (l.batch != [] ==>
          && |l.batch| < k.size && l.run.None?
          && Consecutive(l.batch) && l.batch[0].epoch == l.epoch
          && Covered(init, S, off, Offs(l.batch)) && Last(l.batch) + 1 == off)
  }

  ghost predicate Bystander(k: Kind, init: nat, high: nat, S: set<nat>, l: Lane, o: nat)
    requires o in l.tasks
  {
    && TaskOk(k, init, high, S, l, o, l.tasks[o]) && !Held(l, l.tasks[o])
    && (l.tasks[o].Parked? ==> l.tasks[o].aborted)
  }

  /** The messages the batch would hold with this one. */
  lemma BatchGrows(init: nat, S: set<nat>, batch: seq<Item>, item: Item)
    requires batch != [] ==> Consecutive(batch) && Last(batch) + 1 == item.off && batch[0].epoch == item.epoch
    requires Covered(init, S, item.off, Offs(batch))
    ensures var items := batch + [item];
            Consecutive(items) && Last(items) == item.off && items[0].epoch == item.epoch &&
            Offs(items) == Offs(batch) + [item.off] && Covered(init, S, item.off + 1, Offs(items))
  {
    assert Offs(batch + [item]) == Offs(batch) + [item.off];
  }

  lemma PushKeeps(k: Kind, init: nat, high: nat, S: set<nat>, l: Lane, id: nat, off: nat, origin: Origin)
    requires Arriving(k, init, high, S, l, id, off, origin) && l.run.None?
    ensures BatchOk(k, init, high, S, Push(k.size, l, id, off, origin))
  {
    BatchGrows(init, S, l.batch, Item(off, l.epoch));
    if |l.batch| + 1 < k.size {
      PushCollects(k, init, high, S, l, id, off, origin);
    } else {
      PushFills(k, init, high, S, l, id, off, origin);
    }
  }

  lemma PushCollects(k: Kind, init: nat, high: nat, S: set<nat>, l: Lane, id: nat, off: nat, origin: Origin)
    requires Arriving(k, init, high, S, l, id, off, origin)
    requires l.run.None? && |l.batch| + 1 < k.size
    requires var items := l.batch + [Item(off, l.epoch)];
             Consecutive(items) && Last(items) == off && items[0].epoch == l.epoch && Covered(init, S, off + 1, Offs(items))
    ensures BatchOk(k, init, high, S, Push(k.size, l, id, off, origin))
  {
    var l' := Push(k.size, l, id, off, origin);
    forall o | o in l'.tasks
      ensures TaskOk(k, init, high, S, l', o, l'.tasks[o])
      ensures !Held(l', l'.tasks[o]) && (l'.tasks[o].Parked? ==> l'.tasks[o].aborted)
    {
      if o != id { assert Bystander(k, init, high, S, l, o); }
    }
  }

  lemma PushFills(k: Kind, init: nat, high: nat, S: set<nat>, l: Lane, id: nat, off: nat, origin: Origin)
    requires Arriving(k, init, high, S, l, id, off, origin)
    requires l.run.None? && |l.batch| + 1 >= k.size
    requires var items := l.batch + [Item(off, l.epoch)];
             Consecutive(items) && Last(items) == off && items[0].epoch == l.epoch && Covered(init, S, off + 1, Offs(items))
    ensures BatchOk(k, init, high, S, Push(k.size, l, id, off, origin))
  {
    var items := l.batch + [Item(off, l.epoch)];
    var l' := Push(k.size, l, id, off, origin);
    assert Open(l'.tasks[id]) == Offs(items);
    forall o | o in l'.tasks
      ensures TaskOk(k, init, high, S, l', o, l'.tasks[o])
      ensures !Held(l', l'.tasks[o]) && (l'.tasks[o].Parked? ==> l'.tasks[o].aborted)
    {
      if o != id {
        assert Bystander(k, init, high, S, l, o);
        assert !l.tasks[o].Run?;
      }
    }
    assert FrontOffs(l') == Offs(items);
  }

  lemma EnterKeeps(k: Kind, init: nat, high: nat, S: set<nat>, l: Lane, id: nat, off: nat, origin: Origin)
    requires Arriving(k, init, high, S, l, id, off, origin)
    ensures BatchOk(k, init, high, S, Enter(k, l, id, off, origin))
  {
    if l.run.None? {
      PushKeeps(k, init, high, S, l, id, off, origin);
    } else {
      EnterWaits(k, init, high, S, l, id, off, origin);
    }
  }

  /** The message waits for the batch that runs. */
  lemma EnterWaits(k: Kind, init: nat, high: nat, S: set<nat>, l: Lane, id: nat, off: nat, origin: Origin)
    requires Arriving(k, init, high, S, l, id, off, origin) && l.run.Some?
    ensures BatchOk(k, init, high, S, Enter(k, l, id, off, origin))
  {
    var l' := Enter(k, l, id, off, origin);
    forall o | o in l'.tasks
      ensures TaskOk(k, init, high, S, l', o, l'.tasks[o])
      ensures o != id ==> !Held(l', l'.tasks[o]) && (l'.tasks[o].Parked? ==> l'.tasks[o].aborted)
    {
      if o != id { assert Bystander(k, init, high, S, l, o); }
    }
    assert RunOffs(l') == RunOffs(l);
  }

  // ------------------------------------------------ deliveries and waits

  /** A partition that may deliver holds no message: its latest one is settled, collected or in the running batch. */
  lemma NothingHeld(k: Kind, init: nat, high: nat, S: set<nat>, l: Lane, how: Admission)
    requires BatchOk(k, init, high, S, l)
    requires Enabled(k, true, high, l, Deliver(how))
    ensures l.parked.None? && !FrontWaits(l)
    ensures forall o :: o in l.tasks ==> !Held(l, l.tasks[o])
    ensures Covered(init, S, l.next.value, Offs(l.batch) + RunOffs(l))
    ensures forall o :: o in l.tasks && l.tasks[o].Parked? ==> l.tasks[o].aborted
  {
    if l.front.Some? {
      var t := l.tasks[l.front.value];
      assert TaskOk(k, init, high, S, l, l.front.value, t);
      assert t.Run? || t.Closing?;
      if t.Run? { assert FrontOffs(l) == RunOffs(l); }
    }
  }

  /** A delivery that goes straight on is a message arriving. */
  lemma DeliveryArrives(k: Kind, init: nat, high: nat, S: set<nat>, l: Lane, l1: Lane)
    requires BatchOk(k, init, high, S, l)
    requires Enabled(k, true, high, l, Deliver(Now))
    requires l1 == l.(next := Some(l.next.value + 1), nextId := l.nextId + 1, front := Some(l.nextId))
    ensures Arriving(k, init, high, S, l1, l.nextId, l.next.value, Delivery)
  {
    NothingHeld(k, init, high, S, l, Now);
    forall o | o in l1.tasks && o != l.nextId
      ensures Bystander(k, init, high, S, l1, o)
    {
      assert TaskOk(k, init, high, S, l, o, l.tasks[o]);
    }
    assert RunOffs(l1) == RunOffs(l);
    if l.run.Some? { assert TaskOk(k, init, high, S, l, l.run.value, l.tasks[l.run.value]); }
  }

  lemma DeliverNowKeeps(k: Kind, init: nat, high: nat, S: set<nat>, l: Lane)
    requires BatchOk(k, init, high, S, l)
    requires Enabled(k, true, high, l, Deliver(Now))
    ensures BatchOk(k, init, high, S, Delivered(k, true, l, Now))
  {
    var l1 := l.(next := Some(l.next.value + 1), nextId := l.nextId + 1, front := Some(l.nextId));
    DeliveryArrives(k, init, high, S, l, l1);
    EnterKeeps(k, init, high, S, l1, l.nextId, l.next.value, Delivery);
    assert Delivered(k, true, l, Now) == Enter(k, l1, l.nextId, l.next.value, Delivery);
  }

  /** A delivery that waits or is parked. */
  lemma DeliverHeldKeeps(k: Kind, init: nat, high: nat, S: set<nat>, l: Lane, how: Admission)
    requires BatchOk(k, init, high, S, l)
    requires Enabled(k, true, high, l, Deliver(how)) && !how.Now?
    ensures BatchOk(k, init, high, S, Delivered(k, true, l, how))
  {
    NothingHeld(k, init, high, S, l, how);
    var l' := Delivered(k, true, l, how);
    IdsBelowNext(k, init, high, S, l);
    SwapTask(k, init, high, S, l, S, l', l.nextId);
    HeldIsFront(k, init, high, S, l, l', how);
  }

  lemma HeldIsFront(k: Kind, init: nat, high: nat, S: set<nat>, l: Lane, l': Lane, how: Admission)
    requires BatchOk(k, init, high, S, l)
    requires Enabled(k, true, high, l, Deliver(how)) && !how.Now? && l' == Delivered(k, true, l, how)
    requires l.nextId !in l.tasks && l.parked.None? && !FrontWaits(l)
    requires forall o :: o in l.tasks ==> !Held(l, l.tasks[o])
    requires Covered(init, S, l.next.value, Offs(l.batch) + RunOffs(l))
    ensures BatchSession(k, init, high, S, l')
  {
    assert FrontOffs(l') == [l.next.value];
    assert RunOffs(l') == RunOffs(l);
  }

  /** The session's message, taken out of its wait, is a message arriving. */
  lemma FrontArrives(k: Kind, init: nat, high: nat, S: set<nat>, l: Lane, id: nat, l1: Lane, origin: Origin)
    requires BatchOk(k, init, high, S, l)
    requires Has(l, id) && Held(l, l.tasks[id])
    requires match l.tasks[id]
             case Waiting(_, _, _) => origin == Delivery && l1 == l
             case Parked(_, _, _, _) => origin == Chain && l1 == l.(parked := None)
             case Joining(_, _, o, _) => origin == o && l1 == l && l.run.None?
             case _ => false
    ensures l.next.Some? && l.next.value > 0 && Arriving(k, init, high, S, l1, id, l.next.value - 1, origin)
  {
    var off := l.next.value - 1;
    assert TaskOk(k, init, high, S, l, id, l.tasks[id]);
    assert FrontOffs(l) == [off];
    forall o | o in l1.tasks && o != id
      ensures Bystander(k, init, high, S, l1, o)
    {
      assert TaskOk(k, init, high, S, l, o, l.tasks[o]);
    }
    assert RunOffs(l1) == RunOffs(l);
  }

  lemma WakeKeeps(k: Kind, init: nat, high: nat, S: set<nat>, l: Lane, id: nat)
    requires BatchOk(k, init, high, S, l)
    requires Enabled(k, true, high, l, Wake(id)) && l.tasks[id].epoch == l.epoch
    ensures BatchOk(k, init, high, S, Enter(k, l, id, l.tasks[id].off, Delivery))
  {
    FrontArrives(k, init, high, S, l, id, l, Delivery);
    EnterKeeps(k, init, high, S, l, id, l.tasks[id].off, Delivery);
  }

  lemma ReEnterKeeps(k: Kind, init: nat, high: nat, S: set<nat>, l: Lane, id: nat)
    requires BatchOk(k, init, high, S, l)
    requires Enabled(k, true, high, l, ReEnter(id)) && Clean(k, S, true, l, ReEnter(id))
    ensures BatchOk(k, init, high, S, Enter(k, l.(parked := None), id, l.tasks[id].off, Chain))
  {
    var l1 := l.(parked := None);
    FrontArrives(k, init, high, S, l, id, l1, Chain);
    EnterKeeps(k, init, high, S, l1, id, l.tasks[id].off, Chain);
  }

  lemma JoinWakeKeeps(k: Kind, init: nat, high: nat, S: set<nat>, l: Lane, id: nat)
    requires BatchOk(k, init, high, S, l)
    requires Enabled(k, true, high, l, JoinWake(id)) && l.tasks[id].epoch == l.epoch
    ensures BatchOk(k, init, high, S, Push(k.size, l, id, l.tasks[id].off, l.tasks[id].origin))
  {
    var t := l.tasks[id];
    assert TaskOk(k, init, high, S, l, id, t);
    assert l.run.None?;
    FrontArrives(k, init, high, S, l, id, l, t.origin);
    PushKeeps(k, init, high, S, l, id, t.off, t.origin);
  }

  // ---------------------------------------- tasks that hold no message

  /** A task that holds no message of any session. */
  predicate HoldsNothing(l: Lane, t: Task) { !Held(l, t) && (t.Parked? ==> t.aborted) }

  /** The same messages of the same session, in the same place. */
  ghost predicate SameRun(l: Lane, t: Task, t': Task) {
    && t.Run? && t'.Run? && t'.items == t.items && t'.origin == t.origin
  }

  /** A session in which one task that holds nothing changed, without holding anything after. */
  lemma SameSession(k: Kind, init: nat, high: nat, S: set<nat>, l: Lane, S': set<nat>, l': Lane, id: nat)
    requires BatchSession(k, init, high, S, l) && S <= S'
    requires l' == l.(tasks := l'.tasks, nextId := l'.nextId)
    requires forall o :: o != id ==> (o in l'.tasks <==> o in l.tasks) && (o in l.tasks ==> l'.tasks[o] == l.tasks[o])
    requires id in l.tasks ==> HoldsNothing(l, l.tasks[id])
    requires id in l'.tasks ==> HoldsNothing(l, l'.tasks[id])
    requires l.front == Some(id) || l.run == Some(id) ==> id in l.tasks && id in l'.tasks && SameRun(l, l.tasks[id], l'.tasks[id])
    ensures BatchSession(k, init, high, S', l')
  {
    assert FrontOffs(l') == FrontOffs(l) && RunOffs(l') == RunOffs(l) && FrontWaits(l') == FrontWaits(l);
  }

  /** A message that waited through a revocation is not the session's. */
  lemma LeaveKeeps(k: Kind, init: nat, high: nat, S: set<nat>, l: Lane, id: nat, origin: Origin)
    requires BatchOk(k, init, high, S, l) && Has(l, id) && EpochOf(l.tasks[id]) != l.epoch
    requires match l.tasks[id]
             case Waiting(_, _, _) => origin == Delivery
             case Joining(_, _, o, _) => origin == o
             case _ => false
    ensures BatchOk(k, init, high, S, End(l, id, origin, EpochOf(l.tasks[id])))
  {
    var l' := End(l, id, origin, EpochOf(l.tasks[id]));
    assert TaskOk(k, init, high, S, l, id, l.tasks[id]);
    SwapTask(k, init, high, S, l, S, l', id);
    SameSession(k, init, high, S, l, S, l', id);
  }

  lemma GrantKeeps(k: Kind, init: nat, high: nat, S: set<nat>, l: Lane, id: nat)
    requires BatchOk(k, init, high, S, l) && Enabled(k, true, high, l, Grant(id))
    ensures BatchOk(k, init, high, S, l.(tasks := l.tasks[id := l.tasks[id].(granted := true)]))
  {
    var l' := l.(tasks := l.tasks[id := l.tasks[id].(granted := true)]);
    assert TaskOk(k, init, high, S, l, id, l.tasks[id]);
    SwapTask(k, init, high, S, l, S, l', id);
    assert FrontOffs(l') == FrontOffs(l) && RunOffs(l') == RunOffs(l) && FrontWaits(l') == FrontWaits(l);
  }

  lemma RemoveKeeps(k: Kind, init: nat, high: nat, S: set<nat>, l: Lane, S': set<nat>, id: nat)
    requires BatchOk(k, init, high, S, l) && Has(l, id) && S <= S'
    requires (l.tasks[id].Parked? && l.tasks[id].aborted) || l.tasks[id].Transaction?
    ensures BatchOk(k, init, high, S', l.(tasks := l.tasks - {id}))
  {
    var l' := l.(tasks := l.tasks - {id});
    SwapTask(k, init, high, S, l, S', l', id);
    SameSession(k, init, high, S, l, S', l', id);
  }

  lemma ResumeKeeps(k: Kind, init: nat, high: nat, S: set<nat>, l: Lane, id: nat)
    requires BatchOk(k, init, high, S, l) && Enabled(k, true, high, l, Resume(id)) && Clean(k, S, true, l, Resume(id))
    ensures BatchOk(k, init, high, S, l.(tasks := l.tasks - {id}, paused := false, front := if l.front == Some(id) then None else l.front))
  {
    var l' := l.(tasks := l.tasks - {id}, paused := false, front := if l.front == Some(id) then None else l.front);
    SwapTask(k, init, high, S, l, S, l', id);
    assert FrontOffs(l') == FrontOffs(l) && RunOffs(l') == RunOffs(l) && FrontWaits(l') == FrontWaits(l);
  }

  lemma BeginKeeps(k: Kind, init: nat, high: nat, S: set<nat>, l: Lane, id: nat)
    requires BatchOk(k, init, high, S, l)
    requires Has(l, id) && l.tasks[id].Run? && l.tasks[id].stage.Handling?
    requires TasksOk(k, init, high, S, Begun(l, id))
    ensures BatchOk(k, init, high, S, Begun(l, id))
  {
    IdsBelowNext(k, init, high, S, l);
    SameSession(k, init, high, S, l, S, Begun(l, id), l.nextId);
  }

  // ------------------------------------------------------------ the runs

  lemma StageKeeps(k: Kind, init: nat, high: nat, S: set<nat>, l: Lane, S': set<nat>, id: nat, t': Task)
    requires BatchOk(k, init, high, S, l) && S <= S' && Has(l, id) && l.tasks[id].Run? && t'.Run?
    requires t'.items == l.tasks[id].items && t'.origin == l.tasks[id].origin
    ensures BatchSession(k, init, high, S', l.(tasks := l.tasks[id := t']))
  {
    SameSession(k, init, high, S, l, S', l.(tasks := l.tasks[id := t']), id);
  }

  lemma FinishKeeps(k: Kind, init: nat, high: nat, S: set<nat>, l: Lane, S': set<nat>, id: nat)
    requires BatchOk(k, init, high, S, l) && S <= S' && Has(l, id) && l.tasks[id].Run? && l.tasks[id].items != []
    requires l.tasks[id].items[0].epoch != l.epoch || Covered(init, S', Last(l.tasks[id].items) + 1, [])
    ensures BatchSession(k, init, high, S', FinishRun(l, id, l.tasks[id]))
  {
    assert TaskOk(k, init, high, S, l, id, l.tasks[id]);
    FinishHolds(k, init, high, S, l, id);
    FinishCollects(k, init, high, S, l, S', id);
    FinishDelivered(k, init, high, S, l, S', id);
  }

  lemma FinishHolds(k: Kind, init: nat, high: nat, S: set<nat>, l: Lane, id: nat)
    requires FrontOk(l) && HeldOk(l) && Has(l, id) && l.tasks[id].Run? && l.tasks[id].items != []
    ensures FrontOk(FinishRun(l, id, l.tasks[id])) && HeldOk(FinishRun(l, id, l.tasks[id]))
  {
  }

  lemma FinishCollects(k: Kind, init: nat, high: nat, S: set<nat>, l: Lane, S': set<nat>, id: nat)
    requires CollectOk(k, init, S, l) && JoiningOk(l) && Has(l, id) && l.tasks[id].Run? && l.tasks[id].items != []
    requires l.run == Some(id) && S <= S'
    ensures CollectOk(k, init, S', FinishRun(l, id, l.tasks[id])) && JoiningOk(FinishRun(l, id, l.tasks[id]))
  {
    assert l.batch == [];
  }

  lemma FinishDelivered(k: Kind, init: nat, high: nat, S: set<nat>, l: Lane, S': set<nat>, id: nat)
    requires BatchOk(k, init, high, S, l) && S <= S' && Has(l, id) && l.tasks[id].Run? && l.tasks[id].items != []
    requires l.run == Some(id) && ItemsOk(k, high, l.tasks[id].items)
    requires l.tasks[id].items[0].epoch != l.epoch || Covered(init, S', Last(l.tasks[id].items) + 1, [])
    ensures DeliveredOk(init, high, S', FinishRun(l, id, l.tasks[id]))
  {
    var t := l.tasks[id];
    var l' := FinishRun(l, id, t);
    if l.next.Some? {
      forall x | init <= x < l.next.value
        ensures x in S' || x in Offs(l'.batch) + FrontOffs(l') + RunOffs(l')
      {
        assert x in S || x in Offs(l.batch) || x in FrontOffs(l) || x in RunOffs(l);
        if x in Offs(t.items) && l.epoch == t.items[0].epoch { assert x <= Last(t.items); }
        if l.front == Some(id) { assert FrontOffs(l) == Offs(t.items); }
      }
    }
  }
}
