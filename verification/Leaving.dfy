/** What a member may still commit once it left its group. */
module Leaving {
  import opened Basics
  import opened Lanes
  import opened LaneSafety
  import opened Headers
  import opened World
  import opened WorldSafety
  import opened Prefix

  ghost predicate NoRuns(l: Lane) { forall id :: id in l.tasks ==> !l.tasks[id].Run? }

  /** Activations and transactions are about something. */
  ghost predicate Filled(l: Lane) {
    forall id :: id in l.tasks ==>
      (l.tasks[id].Run? ==> l.tasks[id].items != []) && (l.tasks[id].Transaction? ==> l.tasks[id].items != [])
  }

  ghost predicate LaneLeft(c: Config, w: World, k: Key)
    requires k in w.lanes
  {
    && k.member in w.members && k.tp.topic in c.routes && Filled(w.lanes[k])
    && (w.lanes[k].batch != [] ==> w.members[k.member].running)
    && (w.members[k.member].left ==> w.members[k.member].abandoned || NoRuns(w.lanes[k]))
  }

  /** Once a member left the group, only what shutdown abandoned still runs. */
  ghost predicate LeftOk(c: Config, w: World) {
    && (forall m :: m in w.members && w.members[m].left ==> !w.members[m].running)
    && (forall k :: k in w.lanes ==> LaneLeft(c, w, k))
  }

  ghost predicate Commits(l: Lane, id: nat) { id in l.tasks && l.tasks[id].Run? && l.tasks[id].stage.Committing? }

  /** A commit under way, or a transaction begun and not ended. */
  ghost predicate MayCommit(l: Lane, id: nat) { Commits(l, id) || (id in l.tasks && l.tasks[id].Transaction?) }

  // ------------------------------------------------------------- one step

  /** What an abandoned delivery commits itself it began to commit before, and what else it commits goes through a transaction. */
  lemma AbandonedBeginsNoCommit(k: Kind, running: bool, high: nat, l: Lane, e: Event, id: nat)
    requires Enabled(k, running, high, l, e) && RunsHaveItems(l) && !e.TransactionBegin?
    requires MayCommit(Step(k, running, true, high, l, e).lane, id)
    ensures MayCommit(l, id) && (Commits(Step(k, running, true, high, l, e).lane, id) ==> Commits(l, id))
  {
    match e
    case Decode(o, bad) =>
    case HopAcked(o) => HopBeginsNoCommit(l, o, id);
    case HopFailed(o) =>
    case Handler(o, out) =>
    case TransactionCommit(o) =>
    case CommitDone(o, landed) =>
    case _ => WaitBeginsNoCommit(k, running, true, high, l, e, id);
  }

  lemma HopBeginsNoCommit(l: Lane, o: nat, id: nat)
    requires CanHop(l, o) && l.tasks[o].items != []
    requires MayCommit(Acked(true, l, o).lane, id)
    ensures MayCommit(l, id) && (Commits(Acked(true, l, o).lane, id) ==> Commits(l, id))
  {
    if id != o { assert id in l.tasks && Acked(true, l, o).lane.tasks[id] == l.tasks[id]; }
  }

  /** Nothing but a run begins a commit. */
  lemma WaitBeginsNoCommit(k: Kind, running: bool, abandoned: bool, high: nat, l: Lane, e: Event, id: nat)
    requires Enabled(k, running, high, l, e) && RunsHaveItems(l)
    requires !e.Decode? && !e.HopAcked? && !e.HopFailed? && !e.Handler? && !e.CommitDone? && !e.TransactionBegin? && !e.TransactionCommit?
    requires MayCommit(Step(k, running, abandoned, high, l, e).lane, id)
    ensures MayCommit(l, id) && (Commits(Step(k, running, abandoned, high, l, e).lane, id) ==> Commits(l, id))
  {
  }

  /** A lane of a stopped consumer without activations starts nothing. */
  lemma StartsNothing(k: Kind, abandoned: bool, high: nat, l: Lane, e: Event, id: nat)
    requires NoRuns(l) && l.batch == [] && Enabled(k, false, high, l, e)
    ensures var r := Step(k, false, abandoned, high, l, e); NoRuns(r.lane) && !r.stop && (MayCommit(r.lane, id) ==> MayCommit(l, id))
  {
  }

  /** A step that commits finishes a commit under way or a transaction, and commits the offset after its last message. */
  lemma CommitsWhat(k: Kind, running: bool, abandoned: bool, high: nat, l: Lane, e: Event)
    requires Enabled(k, running, high, l, e) && RunsHaveItems(l)
    ensures Step(k, running, abandoned, high, l, e).commit.Some? <==> (e.CommitDone? && e.landed) || e.TransactionCommit?
    ensures (e.CommitDone? || e.TransactionCommit?) ==> MayCommit(l, e.id)
    ensures var r := Step(k, running, abandoned, high, l, e);
            r.commit.Some? ==> var t := l.tasks[e.id]; (t.Run? || t.Transaction?) && t.items != [] && r.commit.value == Last(t.items) + 1
  {
  }

  lemma FilledStep(k: Kind, running: bool, abandoned: bool, high: nat, l: Lane, e: Event)
    requires Enabled(k, running, high, l, e) && Filled(l)
    ensures Filled(After(Step(k, running, abandoned, high, l, e)))
  {
    var r := Step(k, running, abandoned, high, l, e);
    FilledAfter(k, running, abandoned, high, l, e);
    forall id | id in After(r).tasks ensures id in r.lane.tasks && (After(r).tasks[id] == r.lane.tasks[id] || After(r).tasks[id].Parked?) {}
  }

  /** One task changed, or went. */
  lemma FilledSwap(l: Lane, l': Lane, own: nat)
    requires Filled(l)
    requires forall id :: id in l'.tasks && id != own ==> id in l.tasks && l'.tasks[id] == l.tasks[id]
    requires own in l'.tasks ==> (l'.tasks[own].Run? ==> l'.tasks[own].items != []) && (l'.tasks[own].Transaction? ==> l'.tasks[own].items != [])
    ensures Filled(l')
  {
  }

  lemma FilledFlush(l: Lane)
    requires Filled(l)
    ensures Filled(FlushBatch(l))
  {
    FilledSwap(l, FlushBatch(l), l.nextId);
  }

  lemma FilledRevoke(l: Lane)
    requires Filled(l)
    ensures Filled(Revoked(l))
  {
    FilledFlush(l);
    var f := FlushBatch(l);
    FilledSwap(f, Revoked(l), if f.parked.Some? then f.parked.value else 0);
  }

  lemma FilledDeliver(k: Kind, running: bool, high: nat, l: Lane, how: Admission)
    requires Enabled(k, running, high, l, Deliver(how)) && Filled(l)
    ensures Filled(Delivered(k, running, l, how))
  {
    FilledSwap(l, Delivered(k, running, l, how), l.nextId);
  }

  lemma FilledWaits(k: Kind, running: bool, abandoned: bool, high: nat, l: Lane, e: Event)
    requires Enabled(k, running, high, l, e) && Filled(l)
    requires e.Wake? || e.ReEnter? || e.JoinWake?
    ensures Filled(Step(k, running, abandoned, high, l, e).lane)
  {
    FilledSwap(l, Step(k, running, abandoned, high, l, e).lane, e.id);
  }

  /** A run that goes on, or is over. */
  lemma FilledVerdict(k: Kind, running: bool, abandoned: bool, high: nat, l: Lane, id: nat, out: Outcome)
    requires Enabled(k, running, high, l, Handler(id, out)) && Filled(l)
    ensures Filled(Handled(abandoned, l, id, out).lane)
  {
    FilledSwap(l, Handled(abandoned, l, id, out).lane, id);
  }

  lemma FilledRuns(k: Kind, running: bool, abandoned: bool, high: nat, l: Lane, e: Event)
    requires Enabled(k, running, high, l, e) && Filled(l)
    requires e.Decode? || e.HopAcked? || e.HopFailed? || e.CommitDone?
    ensures Filled(Step(k, running, abandoned, high, l, e).lane)
  {
    FilledSwap(l, Step(k, running, abandoned, high, l, e).lane, e.id);
  }

  lemma FilledAfter(k: Kind, running: bool, abandoned: bool, high: nat, l: Lane, e: Event)
    requires Enabled(k, running, high, l, e) && Filled(l)
    ensures Filled(Step(k, running, abandoned, high, l, e).lane)
  {
    if e.Revoke? {
      FilledRevoke(l);
    } else if e.MaxWait? {
      FilledFlush(l);
    } else if e.Deliver? {
      FilledDeliver(k, running, high, l, e.how);
    } else if e.Wake? || e.ReEnter? || e.JoinWake? {
      FilledWaits(k, running, abandoned, high, l, e);
    } else if e.Handler? {
      FilledVerdict(k, running, abandoned, high, l, e.id, e.outcome);
    } else if e.Decode? || e.HopAcked? || e.HopFailed? || e.CommitDone? {
      FilledRuns(k, running, abandoned, high, l, e);
    } else {
      FilledSwap(l, Step(k, running, abandoned, high, l, e).lane, if e.TransactionBegin? || e.Assign? then l.nextId else e.id);
    }
  }

  /** A stopped lane collects nothing. */
  lemma BatchStep(k: Kind, running: bool, abandoned: bool, high: nat, l: Lane, e: Event)
    requires Enabled(k, running, high, l, e) && RunsHaveItems(l) && (l.batch != [] ==> running)
    ensures var r := Step(k, running, abandoned, high, l, e); After(r).batch != [] ==> running && !r.stop
  {
  }

  // ------------------------------------------------------------- all runs

  lemma UntouchedLane(c: Config, w: World, k: Key)
    requires LeftOk(c, w) && k.member in w.members && k.tp.topic in c.routes
    ensures Filled(w.LaneOf(k)) && (w.LaneOf(k).batch != [] ==> w.members[k.member].running)
    ensures w.members[k.member].left ==> w.members[k.member].abandoned || NoRuns(w.LaneOf(k))
  {
    if k in w.lanes { assert LaneLeft(c, w, k); }
  }

  lemma StoppedLeft(l: Lane)
    ensures Filled(l) ==> Filled(Stopped(l))
    ensures NoRuns(l) ==> NoRuns(Stopped(l))
    ensures Stopped(l).batch == [] && forall id :: MayCommit(Stopped(l), id) <==> MayCommit(l, id)
  {
  }

  /** The lane a step was on. */
  lemma OwnLane(c: Config, w: World, k: Key, e: Event, hop: HopChoice)
    requires LeftOk(c, w) && CanAct(c, w, k, e, hop)
    ensures var r, m := StepAt(c, w, k, e, hop), w.members[k.member];
            && Filled(After(r)) && (After(r).batch != [] ==> m.running && !r.stop)
            && (m.left && !m.abandoned ==> NoRuns(After(r)) && !r.stop)
  {
    var kind, m, high, l := KindOf(c, k.tp.topic), w.members[k.member], |w.Log(k.tp)|, w.LaneOf(k);
    UntouchedLane(c, w, k);
    FilledStep(kind, m.running, m.abandoned, high, l, e);
    BatchStep(kind, m.running, m.abandoned, high, l, e);
    if m.left && !m.abandoned { StartsNothing(kind, m.abandoned, high, l, e, 0); }
  }

  /** The members and lanes after a step whose own lane became `own`. */
  ghost predicate StepsTo(w: World, w': World, k: Key, own: Lane, stop: bool) {
    && k.member in w.members
    && w'.members == (if stop then w.members[k.member := w.members[k.member].(running := false)] else w.members)
    && k in w'.lanes && w'.lanes[k] == own
    && (forall q :: q in w'.lanes && q != k ==> q in w.lanes && w'.lanes[q] == if stop && q.member == k.member then Stopped(w.lanes[q]) else w.lanes[q])
  }

  lemma ActStepsTo(c: Config, w: World, k: Key, e: Event, hop: HopChoice)
    requires CanAct(c, w, k, e, hop)
    ensures var r := StepAt(c, w, k, e, hop); StepsTo(w, Acted(c, w, k, e, hop), k, After(r), r.stop)
  {
    ActedIs(c, w, k, e, hop);
  }

  lemma StepsToLeft(c: Config, w: World, w': World, k: Key, own: Lane, stop: bool)
    requires LeftOk(c, w) && StepsTo(w, w', k, own, stop) && k.tp.topic in c.routes
    requires Filled(own) && (own.batch != [] ==> w.members[k.member].running && !stop)
    requires w.members[k.member].left && !w.members[k.member].abandoned ==> NoRuns(own)
    ensures LeftOk(c, w')
  {
    forall q | q in w'.lanes ensures LaneLeft(c, w', q) {
      if q != k {
        assert LaneLeft(c, w, q);
        StoppedLeft(w.lanes[q]);
      }
    }
  }

  lemma LeftActKeeps(c: Config, w: World, k: Key, e: Event, hop: HopChoice)
    requires LeftOk(c, w) && CanAct(c, w, k, e, hop)
    ensures LeftOk(c, Acted(c, w, k, e, hop))
  {
    var r := StepAt(c, w, k, e, hop);
    ActStepsTo(c, w, k, e, hop);
    OwnLane(c, w, k, e, hop);
    StepsToLeft(c, w, Acted(c, w, k, e, hop), k, After(r), r.stop);
  }

  lemma LeftKeeps(c: Config, w: World, a: Act)
    requires LeftOk(c, w) && Can(c, w, a)
    ensures LeftOk(c, Next(c, w, a))
  {
    match a
    case At(k, e, hop) => LeftActKeeps(c, w, k, e, hop);
    case Stop(m) => StopKeepsLeft(c, w, m);
    case Leave(m) => LeaveKeepsLeft(c, w, m);
    case Join(m) => forall k | k in w.lanes ensures LaneLeft(c, Next(c, w, a), k) { assert LaneLeft(c, w, k); }
    case Append(tp, rec) => forall k | k in w.lanes ensures LaneLeft(c, Next(c, w, a), k) { assert LaneLeft(c, w, k); }
  }

  lemma LeaveKeepsLeft(c: Config, w: World, m: nat)
    requires LeftOk(c, w) && Can(c, w, Leave(m))
    ensures LeftOk(c, Next(c, w, Leave(m)))
  {
    var w' := Next(c, w, Leave(m));
    forall k | k in w.lanes ensures LaneLeft(c, w', k) {
      assert LaneLeft(c, w, k);
      if k.member == m && !Busy(w, m) { assert NoRuns(w.lanes[k]); }
    }
  }

  lemma StopKeepsLeft(c: Config, w: World, m: nat)
    requires LeftOk(c, w) && m in w.members
    ensures LeftOk(c, StopMember(w, m))
  {
    forall k | k in w.lanes ensures LaneLeft(c, StopMember(w, m), k) {
      assert LaneLeft(c, w, k);
      StoppedLeft(w.lanes[k]);
    }
  }

  lemma {:induction false} LeftAlways(c: Config, w: World, run: seq<Act>)
    requires LeftOk(c, w) && Runs(c, w, run)
    ensures LeftOk(c, Final(c, w, run))
    decreases |run|
  {
    if run != [] {
      LeftKeeps(c, w, run[0]);
      LeftAlways(c, Next(c, w, run[0]), run[1..]);
    }
  }

  // ------------------------------------------------- after leaving the group

  ghost predicate HasLeft(w: World, m: nat) { m in w.members && w.members[m].left }

  /** Nothing that may commit is new. */
  ghost predicate NoNewCommits(w: World, w': World, m: nat) {
    forall k: Key, id: nat :: k.member == m && MayCommit(w'.LaneOf(k), id) ==> MayCommit(w.LaneOf(k), id)
  }

  lemma OwnNoNewCommit(c: Config, w: World, k: Key, e: Event, hop: HopChoice, id: nat)
    requires LeftOk(c, w) && CanAct(c, w, k, e, hop) && HasLeft(w, k.member) && MayCommit(StepAt(c, w, k, e, hop).lane, id)
    ensures MayCommit(w.LaneOf(k), id)
  {
    var kind, m, high, l := KindOf(c, k.tp.topic), w.members[k.member], |w.Log(k.tp)|, w.LaneOf(k);
    UntouchedLane(c, w, k);
    if m.abandoned { AbandonedBeginsNoCommit(kind, m.running, high, l, e, id); } else { StartsNothing(kind, m.abandoned, high, l, e, id); }
  }

  lemma StepsToNoNew(w: World, w': World, k: Key, own: Lane, stop: bool, m: nat)
    requires StepsTo(w, w', k, own, stop) && HasLeft(w, m)
    requires k.member == m ==> forall id :: MayCommit(own, id) ==> MayCommit(w.LaneOf(k), id)
    ensures NoNewCommits(w, w', m) && HasLeft(w', m)
  {
    forall q: Key, id: nat | q.member == m && MayCommit(w'.LaneOf(q), id) ensures MayCommit(w.LaneOf(q), id) {
      if q != k && q in w.lanes { StoppedLeft(w.lanes[q]); }
    }
  }

  lemma ActNoNewCommits(c: Config, w: World, k: Key, e: Event, hop: HopChoice, m: nat)
    requires LeftOk(c, w) && CanAct(c, w, k, e, hop) && HasLeft(w, m)
    ensures NoNewCommits(w, Acted(c, w, k, e, hop), m) && HasLeft(Acted(c, w, k, e, hop), m)
  {
    var r := StepAt(c, w, k, e, hop);
    ActStepsTo(c, w, k, e, hop);
    if k.member == m {
      StoppedLeft(r.lane);
      forall id | MayCommit(After(r), id) ensures MayCommit(w.LaneOf(k), id) { OwnNoNewCommit(c, w, k, e, hop, id); }
    }
    StepsToNoNew(w, Acted(c, w, k, e, hop), k, After(r), r.stop, m);
  }

  lemma NextNoNewCommits(c: Config, w: World, a: Act, m: nat)
    requires LeftOk(c, w) && Can(c, w, a) && HasLeft(w, m)
    ensures NoNewCommits(w, Next(c, w, a), m) && HasLeft(Next(c, w, a), m)
  {
    if a.At? {
      ActNoNewCommits(c, w, a.key, a.event, a.hop, m);
    } else {
      forall k: Key, id | k in w.lanes && MayCommit(Next(c, w, a).LaneOf(k), id) ensures MayCommit(w.LaneOf(k), id) {
        StoppedLeft(w.lanes[k]);
      }
    }
  }

  lemma {:induction false} RunNoNewCommits(c: Config, w: World, run: seq<Act>, m: nat)
    requires LeftOk(c, w) && Runs(c, w, run) && HasLeft(w, m)
    ensures NoNewCommits(w, Final(c, w, run), m) && HasLeft(Final(c, w, run), m)
    decreases |run|
  {
    if run != [] {
      var w1 := Next(c, w, run[0]);
      NextNoNewCommits(c, w, run[0], m);
      LeftKeeps(c, w, run[0]);
      RunNoNewCommits(c, w1, run[1..], m);
      forall k: Key, id | k.member == m && MayCommit(Final(c, w, run).LaneOf(k), id) ensures MayCommit(w.LaneOf(k), id) {
        assert MayCommit(w1.LaneOf(k), id);
      }
    }
  }

  /** A step on this partition by this member commits an offset. */
  ghost predicate CommitsAt(c: Config, w: World, k: Key, e: Event, hop: HopChoice) {
    CanAct(c, w, k, e, hop) && StepAt(c, w, k, e, hop).commit.Some?
  }

  /**
   * In any run at all: after a member left its group it commits an offset
   * only by finishing what it had begun by then, a commit under way or a
   * transaction that was open.
   */
  lemma NoCommitAfterLeave(c: Config, w: World, before: seq<Act>, after: seq<Act>, k: Key, e: Event, hop: HopChoice)
    requires Initial(w) && Runs(c, w, before) && HasLeft(Final(c, w, before), k.member)
    requires Runs(c, Final(c, w, before), after) && CommitsAt(c, Final(c, Final(c, w, before), after), k, e, hop)
    ensures (e.CommitDone? || e.TransactionCommit?) && MayCommit(Final(c, w, before).LaneOf(k), e.id)
  {
    var w1 := Final(c, w, before);
    var w2 := Final(c, w1, after);
    LeftAlways(c, w, before);
    RunNoNewCommits(c, w1, after, k.member);
    CommitsWhat(KindOf(c, k.tp.topic), w2.members[k.member].running, w2.members[k.member].abandoned, |w2.Log(k.tp)|, w2.LaneOf(k), e);
  }

  ghost predicate CommitsLater(c: Config, w: World, k: Key) {
    exists run, e, hop :: Runs(c, w, run) && CommitsAt(c, Final(c, w, run), k, e, hop)
  }

  /** And it may do that: a member that left can still commit for a partition if and only if it left with a commit under way there, or a transaction open. */
  lemma LeavingExactly(c: Config, w: World, before: seq<Act>, k: Key)
    requires Initial(w) && Runs(c, w, before) && HasLeft(Final(c, w, before), k.member)
    ensures CommitsLater(c, Final(c, w, before), k) <==> exists id :: MayCommit(Final(c, w, before).LaneOf(k), id)
  {
    var w1 := Final(c, w, before);
    if CommitsLater(c, w1, k) {
      var after, e, hop :| Runs(c, w1, after) && CommitsAt(c, Final(c, w1, after), k, e, hop);
      NoCommitAfterLeave(c, w, before, after, k, e, hop);
    }
    if id :| MayCommit(w1.LaneOf(k), id) {
      LeftAlways(c, w, before);
      FinishesIt(c, w1, k, id);
    }
  }

  lemma FinishesIt(c: Config, w: World, k: Key, id: nat)
    requires LeftOk(c, w) && MayCommit(w.LaneOf(k), id)
    ensures CommitsLater(c, w, k)
  {
    assert LaneLeft(c, w, k);
    var e := if Commits(w.LaneOf(k), id) then CommitDone(id, true) else TransactionCommit(id);
    var hop := HopChoice(false, false, 0, HopInput("", 0, "", "", Hook(map[], {})));
    assert CanAct(c, w, k, e, hop);
    assert CommitsAt(c, w, k, e, hop);
    assert Runs(c, w, []) && Final(c, w, []) == w;
  }
}
