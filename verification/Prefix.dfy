/** Runs of the broker and its members, and what lies below the offsets the group committed. */
module Prefix {
  import opened Basics
  import opened Lanes
  import opened LaneSafety
  import opened Order
  import opened World
  import opened WorldSafety

  /** `run` can be taken from `w`, one step after the other. */
  ghost predicate Runs(c: Config, w: World, run: seq<Act>)
    decreases |run|
  {
    run != [] ==> Can(c, w, run[0]) && Runs(c, Next(c, w, run[0]), run[1..])
  }

  /** Every step of the run is clean, or in order. */
  ghost predicate GuardedRun(g: Guard, c: Config, w: World, run: seq<Act>)
    requires Runs(c, w, run)
    decreases |run|
  {
    run != [] ==> GuardedAct(g, c, w, run[0]) && GuardedRun(g, c, Next(c, w, run[0]), run[1..])
  }

  ghost function Final(c: Config, w: World, run: seq<Act>): World
    requires Runs(c, w, run)
    decreases |run|
  {
    if run == [] then w else Final(c, Next(c, w, run[0]), run[1..])
  }

  /** Logs with whatever is on them, a group that committed nothing, and no member yet. */
  ghost predicate Initial(w: World) {
    && w.committed == map[] && w.ever == {} && w.fates == {} && w.taken == {}
    && w.members == map[] && w.lanes == map[] && StartsOk(w)
  }

  /** Everything below a committed offset has an outcome or was taken along by a transaction. */
  ghost predicate AccountedPrefix(w: World) {
    forall tp :: tp in w.committed ==> Covered(w.Init(tp), w.Accounted(tp), w.committed[tp], [])
  }

  /** A message of the partition that nothing accounts for. */
  ghost predicate LeftOut(w: World, tp: TP, x: nat) { w.Init(tp) <= x && x !in w.Accounted(tp) }

  lemma InitialOk(g: Guard, c: Config, w: World)
    requires Initial(w)
    ensures WorldOk(g, c, w)
  {
  }

  lemma {:induction false} RunKeeps(g: Guard, c: Config, w: World, run: seq<Act>)
    requires ConfigOk(c) && WorldOk(g, c, w) && Runs(c, w, run) && GuardedRun(g, c, w, run)
    ensures WorldOk(g, c, Final(c, w, run))
    decreases |run|
  {
    if run != [] {
      NextKeeps(g, c, w, run[0]);
      RunKeeps(g, c, Next(c, w, run[0]), run[1..]);
    }
  }

  lemma BooksCovered(w: World)
    requires CommitsOk(w)
    ensures AccountedPrefix(w)
  {
    forall tp | tp in w.committed ensures Covered(w.Init(tp), w.Accounted(tp), w.committed[tp], []) {
      assert (tp, w.committed[tp]) in w.ever;
    }
  }

  /** A run of clean steps is one of steps in order. */
  lemma {:induction false} CleanRunInOrder(c: Config, w: World, run: seq<Act>)
    requires ConfigOk(c) && WorldOk(BySession, c, w) && Runs(c, w, run) && GuardedRun(BySession, c, w, run)
    ensures GuardedRun(ByOrder, c, w, run)
    decreases |run|
  {
    if run != [] {
      CleanActInOrder(c, w, run[0]);
      NextKeeps(BySession, c, w, run[0]);
      CleanRunInOrder(c, Next(c, w, run[0]), run[1..]);
    }
  }

  /** As long as every step is in order, the group never commits past a message that is not accounted for. */
  lemma OrderSuffices(c: Config, w: World, run: seq<Act>)
    requires ConfigOk(c) && WorldOk(ByOrder, c, w) && Runs(c, w, run) && GuardedRun(ByOrder, c, w, run)
    ensures AccountedPrefix(Final(c, w, run))
  {
    RunKeeps(ByOrder, c, w, run);
    BooksCovered(Final(c, w, run));
  }

  // ------------------------------------------------------ runs in two parts

  lemma {:induction false} RunsTogether(g: Guard, c: Config, w: World, run: seq<Act>, more: seq<Act>)
    requires Runs(c, w, run) && Runs(c, Final(c, w, run), more)
    ensures Runs(c, w, run + more) && Final(c, w, run + more) == Final(c, Final(c, w, run), more)
    ensures GuardedRun(g, c, w, run) && GuardedRun(g, c, Final(c, w, run), more) ==> GuardedRun(g, c, w, run + more)
    decreases |run|
  {
    var both := run + more;
    if run == [] {
      assert both == more;
    } else {
      RunsTogether(g, c, Next(c, w, run[0]), run[1..], more);
      assert both[0] == run[0] && both[1..] == run[1..] + more;
    }
  }

  /** `w'` can be reached from `w`, by guarded steps. */
  ghost predicate Reaches(g: Guard, c: Config, w: World, w': World) {
    exists run :: Runs(c, w, run) && GuardedRun(g, c, w, run) && Final(c, w, run) == w'
  }

  lemma ReachesItself(g: Guard, c: Config, w: World)
    ensures Reaches(g, c, w, w)
  {
    assert Runs(c, w, []) && GuardedRun(g, c, w, []) && Final(c, w, []) == w;
  }

  lemma OneStep(g: Guard, c: Config, w: World, a: Act)
    requires Can(c, w, a)
    ensures Runs(c, w, [a]) && Final(c, w, [a]) == Next(c, w, a) && (GuardedAct(g, c, w, a) ==> GuardedRun(g, c, w, [a]))
  {
    var one := [a];
    assert one[1..] == [];
    assert Runs(c, Next(c, w, a), one[1..]) && GuardedRun(g, c, Next(c, w, a), one[1..]);
    assert Final(c, Next(c, w, a), one[1..]) == Next(c, w, a);
  }

  lemma ReachesOn(g: Guard, c: Config, w0: World, w: World, a: Act)
    requires Reaches(g, c, w0, w) && Can(c, w, a) && GuardedAct(g, c, w, a)
    ensures Reaches(g, c, w0, Next(c, w, a))
  {
    var run :| Runs(c, w0, run) && GuardedRun(g, c, w0, run) && Final(c, w0, run) == w;
    OneStep(g, c, w, a);
    RunsTogether(g, c, w0, run, [a]);
    assert Runs(c, w0, run + [a]) && GuardedRun(g, c, w0, run + [a]) && Final(c, w0, run + [a]) == Next(c, w, a);
  }

  lemma ReachesThrough(g: Guard, c: Config, w0: World, w1: World, w2: World)
    requires Reaches(g, c, w0, w1) && Reaches(g, c, w1, w2)
    ensures Reaches(g, c, w0, w2)
  {
    var run :| Runs(c, w0, run) && GuardedRun(g, c, w0, run) && Final(c, w0, run) == w1;
    var more :| Runs(c, w1, more) && GuardedRun(g, c, w1, more) && Final(c, w1, more) == w2;
    RunsTogether(g, c, w0, run, more);
    assert Runs(c, w0, run + more) && GuardedRun(g, c, w0, run + more) && Final(c, w0, run + more) == w2;
  }
}
