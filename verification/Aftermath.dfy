/** What a revocation or a stop ends for good: what waited never runs, and nothing new begins. */
module Aftermath {
  import opened Basics
  import opened Lanes
  import opened LaneSafety
  import opened LaneSteps
  import opened World
  import opened WorldSafety
  import opened Prefix

  // ----------------------------------------------------------- a revocation

  /** An activation whose message will not reach a handler or a batch any more. */
  predicate Gone(l: Lane, id: nat) {
    id < l.nextId && (Outlived(l, id) || id !in l.tasks || l.tasks[id].Closing?)
  }

  /** A revocation ends whatever waits: a delivery that is held, a message waiting for a batch, and the parked one without a slot. */
  lemma RevokeEnds(l: Lane, id: nat)
    requires id in l.tasks && id < l.nextId && EpochOf(l.tasks[id]) <= l.epoch
    requires l.tasks[id].Waiting? || l.tasks[id].Joining? || (l.tasks[id].Parked? && !l.tasks[id].granted && l.parked == Some(id))
    ensures Gone(Revoked(l), id)
  {
  }

  /** A stop ends the parked one. */
  lemma StopEnds(l: Lane, id: nat)
    requires id in l.tasks && id < l.nextId && l.tasks[id].Parked? && !l.tasks[id].granted && l.parked == Some(id)
    ensures Gone(Stopped(l), id)
  {
  }

  /** The activation is over, or has nothing left to do but resume. */
  predicate Done(l: Lane, id: nat) { id < l.nextId && (id in l.tasks ==> l.tasks[id].Closing?) }

  predicate OfARun(e: Event) { e.Decode? || e.HopAcked? || e.HopFailed? || e.Handler? || e.CommitDone? }

  lemma RunLeavesDone(k: Kind, running: bool, abandoned: bool, high: nat, l: Lane, e: Event, id: nat)
    requires Enabled(k, running, high, l, e) && RunsHaveItems(l) && OfARun(e) && Done(l, id)
    ensures Done(Step(k, running, abandoned, high, l, e).lane, id)
  {
    if id in l.tasks { OthersStay(k, running, abandoned, high, l, e, id); } else { NeverBack(k, running, abandoned, high, l, e, id); }
    RunKeepsIds(k, running, abandoned, high, l, e);
  }

  lemma RunKeepsIds(k: Kind, running: bool, abandoned: bool, high: nat, l: Lane, e: Event)
    requires Enabled(k, running, high, l, e) && RunsHaveItems(l) && OfARun(e)
    ensures Step(k, running, abandoned, high, l, e).lane.nextId == l.nextId
  {
  }

  lemma NeverBack(k: Kind, running: bool, abandoned: bool, high: nat, l: Lane, e: Event, id: nat)
    requires Enabled(k, running, high, l, e) && RunsHaveItems(l) && OfARun(e) && id !in l.tasks
    ensures id !in Step(k, running, abandoned, high, l, e).lane.tasks
  {
    if e.Handler? { VerdictBringsNone(abandoned, l, e, id); }
    if e.HopAcked? { HopBringsNone(abandoned, l, e.id, id); }
  }

  lemma VerdictBringsNone(abandoned: bool, l: Lane, e: Event, id: nat)
    requires e.Handler? && Has(l, e.id) && l.tasks[e.id].Run? && l.tasks[e.id].stage.Handling? && l.tasks[e.id].items != []
    requires id !in l.tasks
    ensures id !in Handled(abandoned, l, e.id, e.outcome).lane.tasks
  {
  }

  lemma HopBringsNone(abandoned: bool, l: Lane, of: nat, id: nat)
    requires CanHop(l, of) && l.tasks[of].items != [] && id !in l.tasks
    ensures id !in Acked(abandoned, l, of).lane.tasks
  {
  }

  lemma OtherLeavesDone(k: Kind, running: bool, abandoned: bool, high: nat, l: Lane, e: Event, id: nat)
    requires Enabled(k, running, high, l, e) && RunsHaveItems(l) && !OfARun(e) && Done(l, id)
    ensures Done(Step(k, running, abandoned, high, l, e).lane, id)
  {
  }

  lemma DoneStays(k: Kind, running: bool, abandoned: bool, high: nat, l: Lane, e: Event, id: nat)
    requires Enabled(k, running, high, l, e) && RunsHaveItems(l) && Done(l, id)
    ensures Done(After(Step(k, running, abandoned, high, l, e)), id)
  {
    if OfARun(e) { RunLeavesDone(k, running, abandoned, high, l, e, id); } else { OtherLeavesDone(k, running, abandoned, high, l, e, id); }
    StopLeavesDone(Step(k, running, abandoned, high, l, e).lane, id);
  }

  lemma StopLeavesDone(l: Lane, id: nat)
    requires Done(l, id)
    ensures Done(Stopped(l), id)
  {
  }

  lemma IdsGrow(k: Kind, running: bool, abandoned: bool, high: nat, l: Lane, e: Event)
    requires Enabled(k, running, high, l, e) && RunsHaveItems(l)
    ensures After(Step(k, running, abandoned, high, l, e)).nextId >= l.nextId
  {
    if OfARun(e) { RunKeepsIds(k, running, abandoned, high, l, e); } else { OtherIdsGrow(k, running, abandoned, high, l, e); }
  }

  lemma OtherIdsGrow(k: Kind, running: bool, abandoned: bool, high: nat, l: Lane, e: Event)
    requires Enabled(k, running, high, l, e) && RunsHaveItems(l) && !OfARun(e)
    ensures Step(k, running, abandoned, high, l, e).lane.nextId >= l.nextId
  {
  }

  lemma GoneStays(k: Kind, running: bool, abandoned: bool, high: nat, l: Lane, e: Event, id: nat)
    requires Enabled(k, running, high, l, e) && RunsHaveItems(l) && Gone(l, id)
    ensures Gone(After(Step(k, running, abandoned, high, l, e)), id)
  {
    if Outlived(l, id) {
      IdsGrow(k, running, abandoned, high, l, e);
      OutlivedNeverRuns(k, running, abandoned, high, l, e, id);
    } else {
      DoneStays(k, running, abandoned, high, l, e, id);
    }
  }

  lemma StopLeavesGone(l: Lane, id: nat)
    requires Gone(l, id)
    ensures Gone(Stopped(l), id)
  {
    if Outlived(l, id) { OutlivedStop(l, id); }
  }

  /** Over any run of any members: what is gone from a partition never runs. */
  lemma {:induction false} NeverRuns(c: Config, w: World, run: seq<Act>, k: Key, id: nat)
    requires Runs(c, w, run) && Gone(w.LaneOf(k), id)
    ensures var l := Final(c, w, run).LaneOf(k); Gone(l, id) && !(id in l.tasks && l.tasks[id].Run?)
    decreases |run|
  {
    if run != [] {
      ActLeavesGone(c, w, run[0], k, id);
      NeverRuns(c, Next(c, w, run[0]), run[1..], k, id);
    }
  }

  lemma ActLeavesGone(c: Config, w: World, a: Act, k: Key, id: nat)
    requires Can(c, w, a) && Gone(w.LaneOf(k), id)
    ensures Gone(Next(c, w, a).LaneOf(k), id)
  {
    if a.At? {
      EventLeavesGone(c, w, a.key, a.event, a.hop, k, id);
    } else if a.Stop? {
      StopLeavesGone(w.LaneOf(k), id);
    }
  }

  lemma EventLeavesGone(c: Config, w: World, q: Key, e: Event, hop: HopChoice, k: Key, id: nat)
    requires CanAct(c, w, q, e, hop) && Gone(w.LaneOf(k), id)
    ensures Gone(Acted(c, w, q, e, hop).LaneOf(k), id)
  {
    ActedIs(c, w, q, e, hop);
    if q == k {
      GoneStays(KindOf(c, k.tp.topic), w.members[k.member].running, w.members[k.member].abandoned, |w.Log(k.tp)|, w.LaneOf(k), e, id);
    } else {
      StopLeavesGone(w.LaneOf(k), id);
      OthersKept(c, w, q, e, hop, k);
    }
  }

  // ------------------------------------------------------------------ a stop

  /** Whoever runs in `l'` ran in `l`, with the same messages. */
  predicate NoneStarted(l: Lane, l': Lane) {
    forall id :: id in l'.tasks && l'.tasks[id].Run? ==> id in l.tasks && l.tasks[id].Run? && l.tasks[id].items == l'.tasks[id].items
  }

  /** A member that has stopped starts nothing on a partition and collects nothing, whatever still comes. */
  lemma StoppedStartsNothing(k: Kind, abandoned: bool, high: nat, l: Lane, e: Event)
    requires Enabled(k, false, high, l, e) && RunsHaveItems(l) && l.batch == []
    ensures var l' := After(Step(k, false, abandoned, high, l, e)); l'.batch == [] && NoneStarted(l, l')
  {
    if OfARun(e) { RunStartsNothing(k, abandoned, high, l, e); } else { OtherStartsNothing(k, abandoned, high, l, e); }
    StopStartsNothing(Step(k, false, abandoned, high, l, e).lane);
  }

  lemma RunStartsNothing(k: Kind, abandoned: bool, high: nat, l: Lane, e: Event)
    requires Enabled(k, false, high, l, e) && RunsHaveItems(l) && OfARun(e)
    ensures var l' := Step(k, false, abandoned, high, l, e).lane; l'.batch == l.batch && NoneStarted(l, l')
  {
    var l' := Step(k, false, abandoned, high, l, e).lane;
    RunCollectsNothing(k, false, abandoned, high, l, e);
    forall id | id in l'.tasks && l'.tasks[id].Run?
      ensures id in l.tasks && l.tasks[id].Run? && l.tasks[id].items == l'.tasks[id].items
    {
      if id !in l.tasks {
        NeverBack(k, false, abandoned, high, l, e, id);
      } else if !l.tasks[id].Run? {
        OthersStay(k, false, abandoned, high, l, e, id);
      } else {
        ItemsStay(k, false, abandoned, high, l, e, id);
      }
    }
  }

  lemma RunCollectsNothing(k: Kind, running: bool, abandoned: bool, high: nat, l: Lane, e: Event)
    requires Enabled(k, running, high, l, e) && RunsHaveItems(l) && OfARun(e)
    ensures Step(k, running, abandoned, high, l, e).lane.batch == l.batch
  {
  }

  ghost predicate SameItems(l: Lane, l': Lane, id: nat)
    requires id in l.tasks && l.tasks[id].Run?
  {
    id in l'.tasks && l'.tasks[id].Run? ==> l'.tasks[id].items == l.tasks[id].items
  }

  lemma VerdictKeepsItems(abandoned: bool, l: Lane, e: Event, id: nat)
    requires e.Handler? && Has(l, e.id) && l.tasks[e.id].Run? && l.tasks[e.id].stage.Handling? && l.tasks[e.id].items != []
    requires id in l.tasks && l.tasks[id].Run?
    ensures SameItems(l, Handled(abandoned, l, e.id, e.outcome).lane, id)
  {
  }

  lemma HopKeepsItems(abandoned: bool, l: Lane, of: nat, id: nat)
    requires CanHop(l, of) && l.tasks[of].items != [] && id in l.tasks && l.tasks[id].Run?
    ensures SameItems(l, Acked(abandoned, l, of).lane, id)
  {
  }

  lemma ItemsStay(k: Kind, running: bool, abandoned: bool, high: nat, l: Lane, e: Event, id: nat)
    requires Enabled(k, running, high, l, e) && RunsHaveItems(l) && OfARun(e) && id in l.tasks && l.tasks[id].Run?
    ensures SameItems(l, Step(k, running, abandoned, high, l, e).lane, id)
  {
    if e.Handler? { VerdictKeepsItems(abandoned, l, e, id); }
    if e.HopAcked? { HopKeepsItems(abandoned, l, e.id, id); }
  }

  lemma OtherStartsNothing(k: Kind, abandoned: bool, high: nat, l: Lane, e: Event)
    requires Enabled(k, false, high, l, e) && RunsHaveItems(l) && !OfARun(e) && l.batch == []
    ensures var l' := Step(k, false, abandoned, high, l, e).lane; l'.batch == [] && NoneStarted(l, l')
  {
  }

  lemma StopStartsNothing(l: Lane)
    ensures Stopped(l).batch == [] && NoneStarted(l, Stopped(l))
  {
  }

  /** The member has stopped and collects nothing. */
  ghost predicate Quiescent(w: World, m: nat) {
    m in w.members && !w.members[m].running && forall k :: k in w.lanes && k.member == m ==> w.lanes[k].batch == []
  }

  /** A stop takes every partition of its member. */
  lemma StopQuiesces(c: Config, w: World, m: nat)
    requires Can(c, w, Stop(m))
    ensures Quiescent(Next(c, w, Stop(m)), m)
  {
    forall k | k in w.lanes && k.member == m ensures Next(c, w, Stop(m)).lanes[k].batch == [] { StopStartsNothing(w.lanes[k]); }
  }

  /** And so does one that a partition's own run begins: a failed hop, an aborting handler. */
  lemma RunStopsAll(c: Config, w: World, k: Key, e: Event, hop: HopChoice)
    requires CanAct(c, w, k, e, hop) && StepAt(c, w, k, e, hop).stop
    ensures Quiescent(Acted(c, w, k, e, hop), k.member)
  {
    var w' := Acted(c, w, k, e, hop);
    ActedIs(c, w, k, e, hop);
    StopStartsNothing(StepAt(c, w, k, e, hop).lane);
    forall x | x in w'.lanes && x.member == k.member ensures w'.lanes[x].batch == [] {
      if x != k { StopStartsNothing(w.lanes[x]); }
    }
  }

  lemma ActStartsNothing(c: Config, w: World, a: Act, k: Key)
    requires Can(c, w, a) && Quiescent(w, k.member)
    ensures Quiescent(Next(c, w, a), k.member) && NoneStarted(w.LaneOf(k), Next(c, w, a).LaneOf(k))
  {
    if a.At? {
      EventStartsNothing(c, w, a.key, a.event, a.hop, k);
    } else if a.Stop? {
      StopStartsNothing(w.LaneOf(k));
    }
  }

  lemma EventStartsNothing(c: Config, w: World, q: Key, e: Event, hop: HopChoice, k: Key)
    requires CanAct(c, w, q, e, hop) && Quiescent(w, k.member)
    ensures Quiescent(Acted(c, w, q, e, hop), k.member) && NoneStarted(w.LaneOf(k), Acted(c, w, q, e, hop).LaneOf(k))
  {
    StaysQuiescent(c, w, q, e, hop, k.member);
    ActedIs(c, w, q, e, hop);
    if q == k {
      HereStartsNothing(c, w, q, e, hop);
    } else {
      OthersKept(c, w, q, e, hop, k);
      StopStartsNothing(w.LaneOf(k));
    }
  }

  lemma StaysQuiescent(c: Config, w: World, q: Key, e: Event, hop: HopChoice, m: nat)
    requires CanAct(c, w, q, e, hop) && Quiescent(w, m)
    ensures Quiescent(Acted(c, w, q, e, hop), m)
  {
    var w' := Acted(c, w, q, e, hop);
    ActedIs(c, w, q, e, hop);
    if q.member == m { HereStartsNothing(c, w, q, e, hop); }
    forall x | x in w'.lanes && x.member == m ensures w'.lanes[x].batch == [] {
      if x != q { StopStartsNothing(w.lanes[x]); }
    }
  }

  lemma HereStartsNothing(c: Config, w: World, q: Key, e: Event, hop: HopChoice)
    requires CanAct(c, w, q, e, hop) && Quiescent(w, q.member)
    ensures var l := After(StepAt(c, w, q, e, hop)); l.batch == [] && NoneStarted(w.LaneOf(q), l)
  {
    StoppedStartsNothing(KindOf(c, q.tp.topic), w.members[q.member].abandoned, |w.Log(q.tp)|, w.LaneOf(q), e);
  }

  /** Over any run: after a stop, its member runs only what it ran when the stop began. */
  lemma {:induction false} NothingNewAfterStop(c: Config, w: World, run: seq<Act>, k: Key)
    requires Runs(c, w, run) && Quiescent(w, k.member)
    ensures NoneStarted(w.LaneOf(k), Final(c, w, run).LaneOf(k))
    decreases |run|
  {
    if run != [] {
      ActStartsNothing(c, w, run[0], k);
      NothingNewAfterStop(c, Next(c, w, run[0]), run[1..], k);
    }
  }
}
