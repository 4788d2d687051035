/** Every step of every lane: what a run goes through, and how a session's steps come together with it. */
module LaneSteps {
  import opened Basics
  import opened Lanes
  import opened LaneSafety
  import E = EachLanes
  import B = BatchLanes

  // ------------------------------------------------------------ the runs

  /** The ledger of a run whose open messages are now `open`. */
  ghost predicate Ledger(init: nat, S: set<nat>, t: Task, open: seq<nat>)
    requires t.Run?
  {
    && t.items != []
    && Covered(init, S, Last(t.items) + 1, open)
    && multiset(Offs(t.items)) == multiset(t.handled) + multiset(t.forwarded) + multiset(open)
  }

  ghost predicate SameRun(t: Task, t': Task) {
    t.Run? && t'.Run? && t'.items == t.items && t'.origin == t.origin && t'.unroutable == t.unroutable
  }

  /** A run that goes on to its next stage. */
  lemma StageKeeps(k: Kind, running: bool, abandoned: bool, init: nat, high: nat, S: set<nat>, S': set<nat>, l: Lane, id: nat, t': Task)
    requires LaneOk(k, running, abandoned, init, high, S, l) && S <= S'
    requires Has(l, id) && SameRun(l.tasks[id], t') && StageOk(t') && Ledger(init, S', t', Open(t'))
    ensures LaneOk(k, running, abandoned, init, high, S', l.(tasks := l.tasks[id := t']))
  {
    var l' := l.(tasks := l.tasks[id := t']);
    assert TaskOk(k, init, high, S, l, id, l.tasks[id]);
    SwapTask(k, init, high, S, l, S', l', id);
    if running {
      if k.Each? { E.StageKeeps(init, high, S, l, S', id, t'); } else { B.StageKeeps(k, init, high, S, l, S', id, t'); }
    }
  }

  /** Once a run is over, nothing else of its partition runs under its name. */
  lemma FinishSound(k: Kind, init: nat, high: nat, S: set<nat>, S': set<nat>, l: Lane, id: nat)
    requires Sound(k, init, high, S, l) && S <= S'
    requires Has(l, id) && l.tasks[id].Run? && l.tasks[id].items != []
    ensures Sound(k, init, high, S', FinishRun(l, id, l.tasks[id]))
  {
    assert TaskOk(k, init, high, S, l, id, l.tasks[id]);
    var l' := FinishRun(l, id, l.tasks[id]);
    forall o | o in l'.tasks
      ensures TaskOk(k, init, high, S', l', o, l'.tasks[o])
    {
      assert TaskOk(k, init, high, S, l, o, l.tasks[o]);
    }
  }

  /** A run may end with its messages accounted for, on a lost partition, or together with the consumer. */
  lemma FinishKeeps(k: Kind, running: bool, abandoned: bool, init: nat, high: nat, S: set<nat>, S': set<nat>, l: Lane, id: nat)
    requires LaneOk(k, running, abandoned, init, high, S, l) && S <= S'
    requires Has(l, id) && l.tasks[id].Run? && l.tasks[id].items != []
    requires Lost(running, l, l.tasks[id].items[0].epoch) || Covered(init, S', Last(l.tasks[id].items) + 1, [])
    ensures LaneOk(k, running, abandoned, init, high, S', FinishRun(l, id, l.tasks[id]))
  {
    FinishSound(k, init, high, S, S', l, id);
    if running {
      if k.Each? { E.FinishKeeps(init, high, S, l, S', id); } else { B.FinishKeeps(k, init, high, S, l, S', id); }
    }
  }

  lemma ToCommitKeeps(k: Kind, running: bool, abandoned: bool, init: nat, high: nat, S: set<nat>, S': set<nat>, l: Lane, id: nat, t: Task)
    requires LaneOk(k, running, abandoned, init, high, S, l) && S <= S'
    requires Has(l, id) && SameRun(l.tasks[id], t) && Ledger(init, S', t, [])
    ensures LaneOk(k, running, abandoned, init, high, S', ToCommit(abandoned, l, id, t))
  {
    if abandoned {
      FinishKeeps(k, running, abandoned, init, high, S, S', l, id);
    } else {
      StageKeeps(k, running, abandoned, init, high, S, S', l, id, t.(stage := Committing));
    }
  }

  lemma ToForwardKeeps(k: Kind, running: bool, abandoned: bool, init: nat, high: nat, S: set<nat>, S': set<nat>, l: Lane, id: nat, t: Task, left: seq<nat>)
    requires LaneOk(k, running, abandoned, init, high, S, l) && S <= S'
    requires Has(l, id) && SameRun(l.tasks[id], t) && Ledger(init, S', t, left)
    ensures LaneOk(k, running, abandoned, init, high, S', ToForward(abandoned, l, id, t, left))
  {
    if left == [] {
      ToCommitKeeps(k, running, abandoned, init, high, S, S', l, id, t);
    } else {
      StageKeeps(k, running, abandoned, init, high, S, S', l, id, t.(stage := Forwarding(left)));
    }
  }

  lemma ToHandlerKeeps(k: Kind, running: bool, abandoned: bool, init: nat, high: nat, S: set<nat>, S': set<nat>, l: Lane, id: nat, t: Task, decoded: seq<nat>)
    requires LaneOk(k, running, abandoned, init, high, S, l) && S <= S'
    requires Has(l, id) && SameRun(l.tasks[id], t) && Ledger(init, S', t, decoded) && t.handled == []
    ensures LaneOk(k, running, abandoned, init, high, S', ToHandler(abandoned, l, id, t, decoded))
  {
    if decoded == [] {
      ToCommitKeeps(k, running, abandoned, init, high, S, S', l, id, t);
    } else {
      StageKeeps(k, running, abandoned, init, high, S, S', l, id, t.(stage := Handling(decoded)));
    }
  }

  lemma DecodeSplits(init: nat, S: set<nat>, t: Task, bad: set<nat>)
    requires t.Run? && Ledger(init, S, t, Offs(t.items))
    ensures Ledger(init, S, t, Select(Offs(t.items), bad, true) + Select(Offs(t.items), bad, false))
  {
    SelectSplits(Offs(t.items), bad);
  }

  lemma DecodeKeeps(k: Kind, running: bool, abandoned: bool, init: nat, high: nat, S: set<nat>, l: Lane, id: nat, bad: set<nat>)
    requires LaneOk(k, running, abandoned, init, high, S, l)
    requires Enabled(k, running, high, l, Decode(id, bad))
    requires l.tasks[id].items != []
    ensures LaneOk(k, running, abandoned, init, high, S, Decoded(abandoned, l, id, l.tasks[id], bad))
  {
    var t := l.tasks[id];
    assert TaskOk(k, init, high, S, l, id, t);
    if abandoned {
      FinishKeeps(k, running, abandoned, init, high, S, S, l, id);
    } else {
      DecodeSplits(init, S, t, bad);
      SplitKeeps(k, running, init, high, S, l, id, Select(Offs(t.items), bad, true), Select(Offs(t.items), bad, false));
    }
  }

  /** The messages sorted into those that decoded and those that did not. */
  lemma SplitKeeps(k: Kind, running: bool, init: nat, high: nat, S: set<nat>, l: Lane, id: nat, failed: seq<nat>, decoded: seq<nat>)
    requires LaneOk(k, running, false, init, high, S, l)
    requires Has(l, id) && l.tasks[id].Run? && l.tasks[id].handled == [] && Ledger(init, S, l.tasks[id], failed + decoded)
    ensures LaneOk(k, running, false, init, high, S,
                   if failed == [] then ToHandler(false, l, id, l.tasks[id], decoded)
                   else WithStage(l, id, l.tasks[id], Salvaging(failed, decoded)))
  {
    var t := l.tasks[id];
    if failed == [] {
      assert failed + decoded == decoded;
      ToHandlerKeeps(k, running, false, init, high, S, S, l, id, t, decoded);
    } else {
      StageKeeps(k, running, false, init, high, S, S, l, id, t.(stage := Salvaging(failed, decoded)));
    }
  }

  /** An acknowledged hop settles the message it forwarded, and only moves it in the ledger. */
  lemma HopMoves(init: nat, S: set<nat>, t: Task, open: seq<nat>, rest: seq<nat>, off: nat)
    requires t.Run? && Ledger(init, S, t, open) && open == [off] + rest
    ensures Ledger(init, Grow(S, [off]), t.(forwarded := t.forwarded + [off]), rest)
  {
    var S' := Grow(S, [off]);
    assert off in S' by { assert off in [off]; }
    forall x | init <= x < Last(t.items) + 1 ensures x in S' || x in rest {
      assert x in S || x in open;
    }
  }

  /** The lane after one undecodable message went down its ladder. */
  lemma SalvageKeeps(k: Kind, running: bool, abandoned: bool, init: nat, high: nat, S: set<nat>, l: Lane, id: nat, bad: seq<nat>, decoded: seq<nat>)
    requires LaneOk(k, running, abandoned, init, high, S, l)
    requires Has(l, id) && l.tasks[id].Run? && l.tasks[id].items != [] && l.tasks[id].stage == Salvaging(bad, decoded) && bad != []
    ensures var t1 := l.tasks[id].(forwarded := l.tasks[id].forwarded + [bad[0]]);
            LaneOk(k, running, abandoned, init, high, Grow(S, [bad[0]]),
                   if bad[1..] == [] then ToHandler(abandoned, l, id, t1, decoded) else WithStage(l, id, t1, Salvaging(bad[1..], decoded)))
  {
    var t := l.tasks[id];
    assert TaskOk(k, init, high, S, l, id, t);
    var S', t1 := Grow(S, [bad[0]]), t.(forwarded := t.forwarded + [bad[0]]);
    HopMoves(init, S, t, bad + decoded, bad[1..] + decoded, bad[0]);
    if bad[1..] == [] {
      assert bad[1..] + decoded == decoded;
      ToHandlerKeeps(k, running, abandoned, init, high, S, S', l, id, t1, decoded);
    } else {
      StageKeeps(k, running, abandoned, init, high, S, S', l, id, t1.(stage := Salvaging(bad[1..], decoded)));
    }
  }

  /** The lane after one message the handler failed on went down its ladder. */
  lemma ForwardedKeeps(k: Kind, running: bool, abandoned: bool, init: nat, high: nat, S: set<nat>, l: Lane, id: nat, left: seq<nat>)
    requires LaneOk(k, running, abandoned, init, high, S, l)
    requires Has(l, id) && l.tasks[id].Run? && l.tasks[id].items != [] && l.tasks[id].stage == Forwarding(left) && left != []
    ensures var t1 := l.tasks[id].(forwarded := l.tasks[id].forwarded + [left[0]]);
            LaneOk(k, running, abandoned, init, high, Grow(S, [left[0]]), ToForward(abandoned, l, id, t1, left[1..]))
  {
    var t := l.tasks[id];
    assert TaskOk(k, init, high, S, l, id, t);
    HopMoves(init, S, t, left, left[1..], left[0]);
    ToForwardKeeps(k, running, abandoned, init, high, S, Grow(S, [left[0]]), l, id, t.(forwarded := t.forwarded + [left[0]]), left[1..]);
  }

  lemma AckKeeps(k: Kind, running: bool, abandoned: bool, init: nat, high: nat, S: set<nat>, l: Lane, id: nat)
    requires LaneOk(k, running, abandoned, init, high, S, l)
    requires CanHop(l, id) && l.tasks[id].items != []
    ensures LaneOk(k, running, abandoned, init, high, Grow(S, Acked(abandoned, l, id).settles), Acked(abandoned, l, id).lane)
  {
    match l.tasks[id].stage
    case Salvaging(bad, decoded) => SalvageKeeps(k, running, abandoned, init, high, S, l, id, bad, decoded);
    case Forwarding(left) => ForwardedKeeps(k, running, abandoned, init, high, S, l, id, left);
    case _ =>
  }

  /** The handler's verdict settles what it handled and leaves the rest to forward. */
  lemma VerdictMoves(init: nat, S: set<nat>, t: Task, open: seq<nat>, fine: seq<nat>, rest: seq<nat>)
    requires t.Run? && Ledger(init, S, t, open)
    requires multiset(open) == multiset(rest) + multiset(fine)
    ensures Ledger(init, Grow(S, fine), t.(handled := t.handled + fine), rest)
  {
    forall x | init <= x < Last(t.items) + 1 ensures x in Grow(S, fine) || x in rest {
      if x !in S {
        assert x in multiset(open);
      }
    }
  }

  lemma ResolvedKeeps(k: Kind, running: bool, abandoned: bool, init: nat, high: nat, S: set<nat>, l: Lane, id: nat)
    requires LaneOk(k, running, abandoned, init, high, S, l)
    requires Enabled(k, running, high, l, Handler(id, Resolved))
    ensures var t, decoded := l.tasks[id], l.tasks[id].stage.decoded;
            LaneOk(k, running, abandoned, init, high, Grow(S, decoded), ToCommit(abandoned, l, id, t.(handled := t.handled + decoded)))
  {
    var t, decoded := l.tasks[id], l.tasks[id].stage.decoded;
    assert TaskOk(k, init, high, S, l, id, t);
    VerdictMoves(init, S, t, decoded, decoded, []);
    ToCommitKeeps(k, running, abandoned, init, high, S, Grow(S, decoded), l, id, t.(handled := t.handled + decoded));
  }

  lemma ListedKeeps(k: Kind, running: bool, abandoned: bool, init: nat, high: nat, S: set<nat>, l: Lane, id: nat, names: set<nat>)
    requires LaneOk(k, running, abandoned, init, high, S, l)
    requires Enabled(k, running, high, l, Handler(id, Listed(names)))
    ensures var t, decoded := l.tasks[id], l.tasks[id].stage.decoded;
            var fine := Select(decoded, names, false);
            LaneOk(k, running, abandoned, init, high, Grow(S, fine),
                   ToForward(abandoned, l, id, t.(handled := t.handled + fine), Select(decoded, names, true)))
  {
    var t, decoded := l.tasks[id], l.tasks[id].stage.decoded;
    assert TaskOk(k, init, high, S, l, id, t);
    var fine, named := Select(decoded, names, false), Select(decoded, names, true);
    SelectSplits(decoded, names);
    VerdictMoves(init, S, t, decoded, fine, named);
    ToForwardKeeps(k, running, abandoned, init, high, S, Grow(S, fine), l, id, t.(handled := t.handled + fine), named);
  }

  lemma HandledKeeps(k: Kind, running: bool, abandoned: bool, init: nat, high: nat, S: set<nat>, l: Lane, id: nat, out: Outcome)
    requires LaneOk(k, running, abandoned, init, high, S, l)
    requires Enabled(k, running, high, l, Handler(id, out))
    requires !Handled(abandoned, l, id, out).stop
    ensures LaneOk(k, running, abandoned, init, high, Grow(S, Handled(abandoned, l, id, out).settles), Handled(abandoned, l, id, out).lane)
  {
    var t := l.tasks[id];
    assert TaskOk(k, init, high, S, l, id, t);
    assert Grow(S, []) == S;
    if abandoned {
      FinishKeeps(k, running, abandoned, init, high, S, Grow(S, Handled(abandoned, l, id, out).settles), l, id);
    } else {
      match out
      case Released => FinishKeeps(k, running, abandoned, init, high, S, S, l, id);
      case Resolved => ResolvedKeeps(k, running, abandoned, init, high, S, l, id);
      case Threw => ToForwardKeeps(k, running, abandoned, init, high, S, S, l, id, t, t.stage.decoded);
      case Listed(names) => ListedKeeps(k, running, abandoned, init, high, S, l, id, names);
      case _ =>
    }
  }

  /** A stop the pipeline begins takes the failed run with it. */
  lemma CrashKeeps(k: Kind, running: bool, abandoned: bool, init: nat, high: nat, S: set<nat>, l: Lane, id: nat)
    requires LaneOk(k, running, abandoned, init, high, S, l)
    requires Has(l, id) && l.tasks[id].Run? && l.tasks[id].items != []
    ensures LaneOk(k, false, abandoned, init, high, S, Stopped(FinishRun(l, id, l.tasks[id])))
  {
    StopKeeps(k, running, abandoned, init, high, S, l);
    FinishKeeps(k, false, abandoned, init, high, S, S, Stopped(l), id);
    StopCommutes(l, id);
  }

  lemma StopCommutes(l: Lane, id: nat)
    requires Has(l, id) && l.tasks[id].Run? && l.tasks[id].items != []
    ensures Stopped(FinishRun(l, id, l.tasks[id])) == FinishRun(Stopped(l), id, l.tasks[id])
  {
    StopCommutesTasks(l, id);
  }

  lemma MapsCommute(m: map<nat, Task>, p: nat, v: Task, id: nat, u: Task)
    requires p != id
    ensures (m - {id})[p := v] == m[p := v] - {id} && m[id := u][p := v] == m[p := v][id := u]
  {
  }

  lemma StopCommutesTasks(l: Lane, id: nat)
    requires Has(l, id) && l.tasks[id].Run? && l.tasks[id].items != []
    ensures Stopped(FinishRun(l, id, l.tasks[id])).tasks == FinishRun(Stopped(l), id, l.tasks[id]).tasks
  {
    if l.parked.Some? && l.parked.value in l.tasks && l.tasks[l.parked.value].Parked? {
      var p := l.parked.value;
      MapsCommute(l.tasks, p, l.tasks[p].(aborted := true), id, Closing(l.tasks[id].items[0].epoch));
    }
  }

  lemma VerdictKeeps(k: Kind, running: bool, abandoned: bool, init: nat, high: nat, S: set<nat>, l: Lane, id: nat, out: Outcome)
    requires LaneOk(k, running, abandoned, init, high, S, l)
    requires Enabled(k, running, high, l, Handler(id, out))
    ensures Kept(k, running, abandoned, init, high, S, Handled(abandoned, l, id, out))
  {
    var r := Handled(abandoned, l, id, out);
    assert r.settles + [] == r.settles && Grow(S, []) == S;
    if r.stop {
      CrashKeeps(k, running, abandoned, init, high, S, l, id);
    } else {
      HandledKeeps(k, running, abandoned, init, high, S, l, id, out);
    }
  }

  // ------------------------------------------------------- transactions

  /** A transaction knows, when it is begun, what its handler was given: the rest of the run went down its ladder already. */
  lemma BegunTask(k: Kind, init: nat, high: nat, S: set<nat>, l: Lane, id: nat)
    requires TasksOk(k, init, high, S, l) && Has(l, id) && l.tasks[id].Run? && l.tasks[id].stage.Handling?
    ensures TasksOk(k, init, high, S, Begun(l, id))
  {
    var t, l' := l.tasks[id], Begun(l, id);
    assert TaskOk(k, init, high, S, l, id, t);
    IdsBelowNext(k, init, high, S, l);
    SwapTask(k, init, high, S, l, S, l', l.nextId);
  }

  lemma BeginKeeps(k: Kind, running: bool, abandoned: bool, init: nat, high: nat, S: set<nat>, l: Lane, id: nat)
    requires LaneOk(k, running, abandoned, init, high, S, l)
    requires Enabled(k, running, high, l, TransactionBegin(id))
    ensures LaneOk(k, running, abandoned, init, high, S, Begun(l, id))
  {
    BegunTask(k, init, high, S, l, id);
    IdsBelowNext(k, init, high, S, l);
    if running {
      if k.Each? { E.BeginKeeps(init, high, S, l, id); } else { B.BeginKeeps(k, init, high, S, l, id); }
    }
  }

  /** A transaction that ended, taking its messages along or not. */
  lemma TransactionEnds(k: Kind, running: bool, abandoned: bool, init: nat, high: nat, S: set<nat>, S': set<nat>, l: Lane, id: nat)
    requires LaneOk(k, running, abandoned, init, high, S, l) && S <= S'
    requires Has(l, id) && l.tasks[id].Transaction?
    ensures LaneOk(k, running, abandoned, init, high, S', l.(tasks := l.tasks - {id}))
  {
    var l' := l.(tasks := l.tasks - {id});
    SwapTask(k, init, high, S, l, S', l', id);
    if running {
      if k.Each? { E.RemoveKeeps(init, high, S, l, S', id); } else { B.RemoveKeeps(k, init, high, S, l, S', id); }
    }
  }

  /** The offset a transaction commits has everything below it accounted for, what it takes along included. */
  lemma TakenCovers(k: Kind, init: nat, high: nat, S: set<nat>, l: Lane, id: nat)
    requires TasksOk(k, init, high, S, l) && Has(l, id) && l.tasks[id].Transaction?
    ensures var t := l.tasks[id];
            t.items != [] && Last(t.items) < high && Covered(init, Grow(S, t.offs), Last(t.items) + 1, [])
  {
    assert TaskOk(k, init, high, S, l, id, l.tasks[id]);
  }

  // ---------------------------------------------------------- the steps

  /** The steps of a run and of its transactions. */
  lemma RunStepKeeps(k: Kind, running: bool, abandoned: bool, init: nat, high: nat, S: set<nat>, l: Lane, e: Event)
    requires LaneOk(k, running, abandoned, init, high, S, l)
    requires Enabled(k, running, high, l, e) && RunsHaveItems(l)
    requires e.Decode? || e.HopAcked? || e.HopFailed? || e.Handler? || e.CommitDone?
    ensures Kept(k, running, abandoned, init, high, S, Step(k, running, abandoned, high, l, e))
  {
    var r := Step(k, running, abandoned, high, l, e);
    assert r.settles + [] == r.settles && Grow(S, []) == S;
    match e
    case Decode(id, bad) => DecodeKeeps(k, running, abandoned, init, high, S, l, id, bad);
    case HopAcked(id) => AckKeeps(k, running, abandoned, init, high, S, l, id);
    case HopFailed(id) => CrashKeeps(k, running, abandoned, init, high, S, l, id);
    case Handler(id, out) => VerdictKeeps(k, running, abandoned, init, high, S, l, id, out);
    case CommitDone(id, landed) =>
      assert TaskOk(k, init, high, S, l, id, l.tasks[id]);
      FinishKeeps(k, running, abandoned, init, high, S, S, l, id);
  }

  lemma TransactionStepKeeps(k: Kind, running: bool, abandoned: bool, init: nat, high: nat, S: set<nat>, l: Lane, e: Event)
    requires LaneOk(k, running, abandoned, init, high, S, l)
    requires Enabled(k, running, high, l, e) && RunsHaveItems(l)
    requires e.TransactionBegin? || e.TransactionCommit? || e.TransactionAbort?
    ensures Kept(k, running, abandoned, init, high, S, Step(k, running, abandoned, high, l, e))
  {
    var r := Step(k, running, abandoned, high, l, e);
    assert [] + r.takes == r.takes && Grow(S, []) == S;
    match e
    case TransactionBegin(id) => BeginKeeps(k, running, abandoned, init, high, S, l, id);
    case TransactionCommit(id) =>
      TakenCovers(k, init, high, S, l, id);
      TransactionEnds(k, running, abandoned, init, high, S, Grow(S, l.tasks[id].offs), l, id);
    case TransactionAbort(id) => TransactionEnds(k, running, abandoned, init, high, S, S, l, id);
  }

  /** On a consumer that does not run any more, waits end and nothing begins. */
  lemma IdleStepKeeps(k: Kind, abandoned: bool, init: nat, high: nat, S: set<nat>, l: Lane, e: Event)
    requires LaneOk(k, false, abandoned, init, high, S, l)
    requires Enabled(k, false, high, l, e) && RunsHaveItems(l)
    requires e.Deliver? || e.Wake? || e.Grant? || e.ReEnter? || e.Drop? || e.Resume? || e.JoinWake? || e.MaxWait?
    ensures LaneOk(k, false, abandoned, init, high, S, Step(k, false, abandoned, high, l, e).lane)
  {
    var l' := Step(k, false, abandoned, high, l, e).lane;
    var own := if e.Deliver? || e.MaxWait? then l.nextId else e.id;
    IdsBelowNext(k, init, high, S, l);
    if own in l.tasks { assert TaskOk(k, init, high, S, l, own, l.tasks[own]); }
    SwapTask(k, init, high, S, l, S, l', own);
  }

  lemma WaitStepKeeps(k: Kind, init: nat, high: nat, S: set<nat>, l: Lane, e: Event)
    requires LaneOk(k, true, false, init, high, S, l)
    requires Enabled(k, true, high, l, e) && Clean(k, S, true, l, e) && RunsHaveItems(l)
    requires e.Wake? || e.ReEnter? || e.JoinWake?
    ensures LaneOk(k, true, false, init, high, S, Step(k, true, false, high, l, e).lane)
  {
    assert TaskOk(k, init, high, S, l, e.id, l.tasks[e.id]);
    var lost := EpochOf(l.tasks[e.id]) != l.epoch;
    match e
    case Wake(id) =>
      if k.Each? {
        if lost { E.LeaveKeeps(init, high, S, l, id); } else { E.EnterKeeps(init, high, S, l, id, l.tasks[id].off, Delivery); }
      } else {
        if lost { B.LeaveKeeps(k, init, high, S, l, id, Delivery); } else { B.WakeKeeps(k, init, high, S, l, id); }
      }
    case ReEnter(id) =>
      if k.Each? { E.ReEnterKeeps(init, high, S, l, id); } else { B.ReEnterKeeps(k, init, high, S, l, id); }
    case JoinWake(id) =>
      if lost { B.LeaveKeeps(k, init, high, S, l, id, l.tasks[id].origin); } else { B.JoinWakeKeeps(k, init, high, S, l, id); }
  }

  lemma SessionStepKeeps(k: Kind, init: nat, high: nat, S: set<nat>, l: Lane, e: Event)
    requires LaneOk(k, true, false, init, high, S, l)
    requires Enabled(k, true, high, l, e) && Clean(k, S, true, l, e) && RunsHaveItems(l)
    requires e.Deliver? || e.Grant? || e.Drop? || e.Resume? || e.MaxWait?
    ensures LaneOk(k, true, false, init, high, S, Step(k, true, false, high, l, e).lane)
  {
    match e
    case Deliver(how) =>
      if k.Each? { E.DeliverKeeps(init, high, S, l, how); }
      else if how.Now? { B.DeliverNowKeeps(k, init, high, S, l); }
      else { B.DeliverHeldKeeps(k, init, high, S, l, how); }
    case Grant(id) => if k.Each? { E.GrantKeeps(init, high, S, l, id); } else { B.GrantKeeps(k, init, high, S, l, id); }
    case Drop(id) => if k.Each? { E.DropKeeps(init, high, S, l, id); } else { B.RemoveKeeps(k, init, high, S, l, S, id); }
    case Resume(id) => if k.Each? { E.ResumeKeeps(init, high, S, l, id); } else { B.ResumeKeeps(k, init, high, S, l, id); }
    case MaxWait => FlushKeeps(k, init, high, S, l);
  }

  lemma FlushKeeps(k: Kind, init: nat, high: nat, S: set<nat>, l: Lane)
    requires LaneOk(k, true, false, init, high, S, l)
    ensures LaneOk(k, true, false, init, high, S, FlushBatch(l))
  {
    MayFlush(k, true, false, init, high, S, l);
    FlushSound(k, init, high, S, l);
    IdsBelowNext(k, init, high, S, l);
    if l.batch != [] {
      var l' := FlushBatch(l);
      assert FrontOffs(l') == FrontOffs(l) && RunOffs(l') == Offs(l.batch) && RunOffs(l) == [];
    }
  }

  /** The steps that settle, commit and stop nothing. */
  predicate IsQuiet(e: Event) {
    || e.Assign? || e.Revoke? || e.Deliver? || e.Wake? || e.Grant? || e.ReEnter? || e.Drop? || e.Resume? || e.JoinWake? || e.MaxWait?
  }

  lemma QuietStepKeeps(k: Kind, running: bool, abandoned: bool, init: nat, high: nat, S: set<nat>, l: Lane, e: Event)
    requires LaneOk(k, running, abandoned, init, high, S, l)
    requires Enabled(k, running, high, l, e) && Clean(k, S, running, l, e) && RunsHaveItems(l) && IsQuiet(e)
    requires e.Assign? ==> e.start <= high && Covered(init, S, e.start, [])
    ensures LaneOk(k, running, abandoned, init, high, S, Step(k, running, abandoned, high, l, e).lane)
  {
    if e.Assign? {
      AssignKeeps(k, running, abandoned, init, high, S, l, e.start);
    } else if e.Revoke? {
      RevokeKeeps(k, running, abandoned, init, high, S, l);
    } else if !running {
      IdleStepKeeps(k, abandoned, init, high, S, l, e);
    } else if e.Wake? || e.ReEnter? || e.JoinWake? {
      WaitStepKeeps(k, init, high, S, l, e);
    } else {
      SessionStepKeeps(k, init, high, S, l, e);
    }
  }

  lemma QuietIsQuiet(k: Kind, running: bool, abandoned: bool, high: nat, l: Lane, e: Event)
    requires Enabled(k, running, high, l, e) && RunsHaveItems(l) && IsQuiet(e)
    ensures Step(k, running, abandoned, high, l, e) == Quiet(Step(k, running, abandoned, high, l, e).lane)
  {
  }

  lemma QuietKept(k: Kind, running: bool, abandoned: bool, init: nat, high: nat, S: set<nat>, l: Lane)
    requires LaneOk(k, running, abandoned, init, high, S, l)
    ensures Kept(k, running, abandoned, init, high, S, Quiet(l))
  {
    assert Gains(S, Quiet(l)) == S;
  }

  /** Every event, in every clean interleaving, keeps every lane. */
  lemma StepKeeps(k: Kind, running: bool, abandoned: bool, init: nat, high: nat, S: set<nat>, l: Lane, e: Event)
    requires LaneOk(k, running, abandoned, init, high, S, l)
    requires Enabled(k, running, high, l, e) && Clean(k, S, running, l, e)
    requires e.Assign? ==> e.start <= high && Covered(init, S, e.start, [])
    ensures RunsHaveItems(l)
    ensures Kept(k, running, abandoned, init, high, S, Step(k, running, abandoned, high, l, e))
  {
    SoundHasItems(k, init, high, S, l);
    if IsQuiet(e) {
      QuietStepKeeps(k, running, abandoned, init, high, S, l, e);
      QuietIsQuiet(k, running, abandoned, high, l, e);
      QuietKept(k, running, abandoned, init, high, S, Step(k, running, abandoned, high, l, e).lane);
    } else if e.TransactionBegin? || e.TransactionCommit? || e.TransactionAbort? {
      TransactionStepKeeps(k, running, abandoned, init, high, S, l, e);
    } else {
      RunStepKeeps(k, running, abandoned, init, high, S, l, e);
    }
  }

  // ---------------------------------------------------- what a revocation ends

  /** A message that waits for something and was taken under an earlier assignment, or was discarded before it got a slot. */
  predicate Outlived(l: Lane, id: nat) {
    id in l.tasks &&
    match l.tasks[id]
    case Waiting(_, epoch, _) => epoch < l.epoch
    case Joining(_, epoch, _, _) => epoch < l.epoch
    case Parked(_, _, granted, aborted) => aborted && !granted
    case _ => false
  }

  /** It never reaches a handler or a batch: it goes on waiting, or its activation ends, with what is collected and what runs as it was. */
  lemma OutlivedNeverRuns(k: Kind, running: bool, abandoned: bool, high: nat, l: Lane, e: Event, id: nat)
    requires Enabled(k, running, high, l, e) && RunsHaveItems(l) && Outlived(l, id) && id < l.nextId
    ensures var l' := After(Step(k, running, abandoned, high, l, e));
            Outlived(l', id) || id !in l'.tasks || l'.tasks[id].Closing?
    ensures var l' := Step(k, running, abandoned, high, l, e).lane;
            (e.Wake? || e.JoinWake? || e.Drop?) && e.id == id ==> l'.batch == l.batch && l'.run == l.run
  {
    if e.Wake? || e.Grant? || e.ReEnter? || e.Drop? || e.Resume? || e.JoinWake? {
      OutlivedWaits(k, running, abandoned, high, l, e, id);
    } else if e.Decode? || e.HopAcked? || e.HopFailed? || e.Handler? || e.CommitDone? {
      OutlivedStays(k, running, abandoned, high, l, e, id);
    }
  }

  lemma OutlivedWaits(k: Kind, running: bool, abandoned: bool, high: nat, l: Lane, e: Event, id: nat)
    requires Enabled(k, running, high, l, e) && RunsHaveItems(l) && Outlived(l, id)
    requires e.Wake? || e.Grant? || e.ReEnter? || e.Drop? || e.Resume? || e.JoinWake?
    ensures var r := Step(k, running, abandoned, high, l, e);
            !r.stop && (Outlived(r.lane, id) || id !in r.lane.tasks || r.lane.tasks[id].Closing?)
  {
  }

  lemma OutlivedStays(k: Kind, running: bool, abandoned: bool, high: nat, l: Lane, e: Event, id: nat)
    requires Enabled(k, running, high, l, e) && RunsHaveItems(l) && Outlived(l, id)
    requires e.Decode? || e.HopAcked? || e.HopFailed? || e.Handler? || e.CommitDone?
    ensures Outlived(After(Step(k, running, abandoned, high, l, e)), id)
  {
    OthersStay(k, running, abandoned, high, l, e, id);
    OutlivedStop(Step(k, running, abandoned, high, l, e).lane, id);
  }

  /** A step of one activation is not seen by another. */
  lemma OthersStay(k: Kind, running: bool, abandoned: bool, high: nat, l: Lane, e: Event, id: nat)
    requires Enabled(k, running, high, l, e) && RunsHaveItems(l) && id in l.tasks && !l.tasks[id].Run?
    requires e.Decode? || e.HopAcked? || e.HopFailed? || e.Handler? || e.CommitDone?
    ensures var l' := Step(k, running, abandoned, high, l, e).lane;
            id in l'.tasks && l'.tasks[id] == l.tasks[id] && l'.epoch == l.epoch
  {
    assert e.id != id;
  }

  lemma OutlivedStop(l: Lane, id: nat)
    requires Outlived(l, id)
    ensures Outlived(Stopped(l), id)
  {
  }
}
