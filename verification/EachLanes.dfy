/** The session of a topic whose messages are handled one by one. */
module EachLanes {
  import opened Basics
  import opened Lanes
  import opened LaneSafety

  ghost predicate EachOk(init: nat, high: nat, S: set<nat>, l: Lane) {
    Sound(Each, init, high, S, l) && EachSession(init, high, S, l)
  }

  /** A session that looks the same from outside, whatever its latest message went through. */
  lemma SameSession(init: nat, high: nat, S: set<nat>, l: Lane, S': set<nat>, l': Lane)
    requires EachSession(init, high, S, l) && S <= S'
    requires l'.next == l.next && l'.epoch == l.epoch && l'.front == l.front && l'.paused == l.paused
    requires l.front.Some? ==> l.front.value in l'.tasks && SameMessage(l, l.tasks[l.front.value], l'.tasks[l.front.value])
    ensures EachSession(init, high, S', l')
  {
    assert FrontOffs(l') == FrontOffs(l);
    if Pending(S', FrontOffs(l')) {
      var x :| x in FrontOffs(l') && x !in S';
      assert Pending(S, FrontOffs(l));
    }
  }

  /** The same message of the same session, on its way back only if it was. */
  ghost predicate SameMessage(l: Lane, t: Task, t': Task) {
    && OffsOf(t') == OffsOf(t) && EpochOf(t') == l.epoch && (IsChain(t') ==> IsChain(t))
    && (l.next.Some? && InPlace(l.next.value, t) ==> InPlace(l.next.value, t'))
  }

  /** A partition that may deliver has nothing pending. */
  lemma NothingPending(init: nat, high: nat, S: set<nat>, l: Lane, how: Admission)
    requires EachOk(init, high, S, l)
    requires Enabled(Each, true, high, l, Deliver(how))
    ensures Covered(init, S, l.next.value, [])
  {
    if l.front.Some? {
      assert TaskOk(Each, init, high, S, l, l.front.value, l.tasks[l.front.value]);
      assert !Pending(S, FrontOffs(l));
    }
  }

  lemma DeliverKeeps(init: nat, high: nat, S: set<nat>, l: Lane, how: Admission)
    requires EachOk(init, high, S, l)
    requires Enabled(Each, true, high, l, Deliver(how))
    ensures EachOk(init, high, S, Delivered(Each, true, l, how))
  {
    NothingPending(init, high, S, l, how);
    var l' := Delivered(Each, true, l, how);
    DeliveredTask(init, high, S, l, how);
    IdsBelowNext(Each, init, high, S, l);
    SwapTask(Each, init, high, S, l, S, l', l.nextId);
    DeliveredSession(init, high, S, l, how);
  }

  lemma DeliveredTask(init: nat, high: nat, S: set<nat>, l: Lane, how: Admission)
    requires Sound(Each, init, high, S, l) && Enabled(Each, true, high, l, Deliver(how)) && Covered(init, S, l.next.value, [])
    ensures var l' := Delivered(Each, true, l, how);
            l.nextId in l'.tasks && TaskOk(Each, init, high, S, l', l.nextId, l'.tasks[l.nextId])
  {
    var l' := Delivered(Each, true, l, how);
    if how.Now? || how.Unroutable? { assert Open(l'.tasks[l.nextId]) == [l.next.value]; }
  }

  lemma DeliveredSession(init: nat, high: nat, S: set<nat>, l: Lane, how: Admission)
    requires Enabled(Each, true, high, l, Deliver(how)) && Covered(init, S, l.next.value, [])
    ensures EachSession(init, high, S, Delivered(Each, true, l, how))
  {
    assert FrontOffs(Delivered(Each, true, l, how)) == [l.next.value];
  }

  lemma EnterKeeps(init: nat, high: nat, S: set<nat>, l: Lane, id: nat, off: nat, origin: Origin)
    requires EachOk(init, high, S, l) && Has(l, id) && origin != Flush
    requires match l.tasks[id]
             case Waiting(o, _, _) => o == off && origin == Delivery
             case Parked(o, _, _, _) => o == off && origin == Chain
             case _ => false
    ensures EachOk(init, high, S, Enter(Each, l, id, off, origin))
  {
    var l' := Enter(Each, l, id, off, origin);
    assert TaskOk(Each, init, high, S, l, id, l.tasks[id]);
    assert Open(l'.tasks[id]) == [off];
    SwapTask(Each, init, high, S, l, S, l', id);
    SameSession(init, high, S, l, S, l');
  }

  lemma ReEnterKeeps(init: nat, high: nat, S: set<nat>, l: Lane, id: nat)
    requires EachOk(init, high, S, l) && Enabled(Each, true, high, l, ReEnter(id))
    ensures EachOk(init, high, S, Enter(Each, l.(parked := None), id, l.tasks[id].off, Chain))
  {
    var l1 := l.(parked := None);
    TasksSame(init, high, S, l, l1);
    SameSession(init, high, S, l, S, l1);
    EnterKeeps(init, high, S, l1, id, l.tasks[id].off, Chain);
  }

  lemma TasksSame(init: nat, high: nat, S: set<nat>, l: Lane, l': Lane)
    requires TasksOk(Each, init, high, S, l)
    requires l'.tasks == l.tasks && l'.nextId == l.nextId && l'.epoch == l.epoch && l'.run == l.run
    ensures TasksOk(Each, init, high, S, l')
  {
    forall o | o in l'.tasks ensures TaskOk(Each, init, high, S, l', o, l'.tasks[o]) {
      assert TaskOk(Each, init, high, S, l, o, l.tasks[o]);
    }
  }

  /** A message that waited through a revocation is not the session's. */
  lemma LeaveKeeps(init: nat, high: nat, S: set<nat>, l: Lane, id: nat)
    requires EachOk(init, high, S, l) && Has(l, id) && l.tasks[id].Waiting? && l.tasks[id].epoch != l.epoch
    ensures EachOk(init, high, S, End(l, id, Delivery, l.tasks[id].epoch))
  {
    var l' := End(l, id, Delivery, l.tasks[id].epoch);
    SwapTask(Each, init, high, S, l, S, l', id);
    SameSession(init, high, S, l, S, l');
  }

  lemma GrantKeeps(init: nat, high: nat, S: set<nat>, l: Lane, id: nat)
    requires EachOk(init, high, S, l) && Enabled(Each, true, high, l, Grant(id))
    ensures EachOk(init, high, S, l.(tasks := l.tasks[id := l.tasks[id].(granted := true)]))
  {
    var l' := l.(tasks := l.tasks[id := l.tasks[id].(granted := true)]);
    assert TaskOk(Each, init, high, S, l, id, l.tasks[id]);
    SwapTask(Each, init, high, S, l, S, l', id);
    SameSession(init, high, S, l, S, l');
  }

  /** A task that is not the session's message goes. */
  lemma RemoveKeeps(init: nat, high: nat, S: set<nat>, l: Lane, S': set<nat>, id: nat)
    requires EachOk(init, high, S, l) && Has(l, id) && l.front != Some(id) && S <= S'
    ensures EachOk(init, high, S', l.(tasks := l.tasks - {id}))
  {
    var l' := l.(tasks := l.tasks - {id});
    SwapTask(Each, init, high, S, l, S', l', id);
    SameSession(init, high, S, l, S', l');
  }

  lemma DropKeeps(init: nat, high: nat, S: set<nat>, l: Lane, id: nat)
    requires EachOk(init, high, S, l) && Enabled(Each, true, high, l, Drop(id))
    ensures EachOk(init, high, S, l.(tasks := l.tasks - {id}))
  {
    RemoveKeeps(init, high, S, l, S, id);
  }

  function ResumedLane(l: Lane, id: nat): Lane {
    l.(tasks := l.tasks - {id}, paused := false, front := if l.front == Some(id) then None else l.front)
  }

  lemma ResumeKeeps(init: nat, high: nat, S: set<nat>, l: Lane, id: nat)
    requires EachOk(init, high, S, l) && Enabled(Each, true, high, l, Resume(id)) && Clean(Each, S, true, l, Resume(id))
    ensures EachOk(init, high, S, ResumedLane(l, id))
  {
    var l' := ResumedLane(l, id);
    SwapTask(Each, init, high, S, l, S, l', id);
    assert FrontOffs(l') == FrontOffs(l);
  }

  /** The handler of a message begins a transaction. */
  lemma BeginKeeps(init: nat, high: nat, S: set<nat>, l: Lane, id: nat)
    requires EachOk(init, high, S, l)
    requires Has(l, id) && l.tasks[id].Run? && l.tasks[id].stage.Handling?
    requires TasksOk(Each, init, high, S, Begun(l, id))
    ensures EachOk(init, high, S, Begun(l, id))
  {
    var l' := Begun(l, id);
    if l.front.Some? { assert TaskOk(Each, init, high, S, l, l.front.value, l.tasks[l.front.value]); }
    SameSession(init, high, S, l, S, l');
  }

  /** A run that goes on. */
  lemma StageKeeps(init: nat, high: nat, S: set<nat>, l: Lane, S': set<nat>, id: nat, t': Task)
    requires EachOk(init, high, S, l) && S <= S' && Has(l, id) && l.tasks[id].Run? && t'.Run?
    requires t'.items == l.tasks[id].items && t'.origin == l.tasks[id].origin
    ensures EachSession(init, high, S', l.(tasks := l.tasks[id := t']))
  {
    SameSession(init, high, S, l, S', l.(tasks := l.tasks[id := t']));
  }

  /** A run that is over, with its message accounted for if it is the session's. */
  lemma FinishKeeps(init: nat, high: nat, S: set<nat>, l: Lane, S': set<nat>, id: nat)
    requires EachOk(init, high, S, l) && S <= S' && Has(l, id) && l.tasks[id].Run? && l.tasks[id].items != []
    requires l.tasks[id].items[0].epoch != l.epoch || Covered(init, S', Last(l.tasks[id].items) + 1, [])
    ensures EachSession(init, high, S', FinishRun(l, id, l.tasks[id]))
  {
    var l' := FinishRun(l, id, l.tasks[id]);
    assert TaskOk(Each, init, high, S, l, id, l.tasks[id]);
    if l.front == Some(id) {
      assert FrontOffs(l') == [];
    } else {
      SameSession(init, high, S, l, S', l');
    }
  }
}
