/**
 * Concrete runs, each of which ends with an offset committed past a message
 * that has no outcome and that nobody still works on: a resume that is not
 * clean, a re-entry after a revocation, and a transaction that is not seen
 * through; and one in which a member commits after it left its group.
 */
module Hazards {
  import opened Basics
  import opened Lanes
  import opened LaneSafety
  import opened Order
  import opened Routes
  import opened Headers
  import opened World
  import opened WorldSafety
  import opened Prefix
  import opened Riders
  import opened Leaving
  import X = Exactness

  const HOP := X.HOP

  /** A run of whatever steps loses a message. */
  ghost predicate Broken(c: Config, w0: World) {
    exists run :: Runs(c, w0, run) && !PrefixSettled(Final(c, w0, run))
  }

  lemma UnaccountedIsLost(w: World)
    requires !AccountedPrefix(w)
    ensures !PrefixSettled(w)
  {
    var tp :| tp in w.committed && !Covered(w.Init(tp), w.Accounted(tp), w.committed[tp], []);
    var x :| w.Init(tp) <= x < w.committed[tp] && x !in w.Accounted(tp);
    assert HasOutcome(w, tp, x) ==> x in w.Settled(tp);
    assert !HasOutcome(w, tp, x) && !Riding(w, tp, x);
  }

  /** Reached, doomed from the next step on: broken. */
  lemma DoomBreaks(g: Guard, g': Guard, c: Config, w0: World, w: World, a: Act)
    requires Reaches(g, c, w0, w) && Can(c, w, a) && X.Doomed(g', c, Next(c, w, a))
    ensures Broken(c, w0)
  {
    var run :| Runs(c, w0, run) && GuardedRun(g, c, w0, run) && Final(c, w0, run) == w;
    var w' :| Reaches(g', c, Next(c, w, a), w') && !AccountedPrefix(w');
    var more :| Runs(c, Next(c, w, a), more) && GuardedRun(g', c, Next(c, w, a), more) && Final(c, Next(c, w, a), more) == w';
    OneStep(g, c, w, a);
    RunsTogether(g, c, w0, run, [a]);
    BreaksAfter(c, w0, run + [a], more);
  }

  lemma BreaksAfter(c: Config, w0: World, run: seq<Act>, more: seq<Act>)
    requires Runs(c, w0, run) && Runs(c, Final(c, w0, run), more) && !AccountedPrefix(Final(c, Final(c, w0, run), more))
    ensures Broken(c, w0)
  {
    RunsTogether(ByOrder, c, w0, run, more);
    UnaccountedIsLost(Final(c, w0, run + more));
    assert Runs(c, w0, run + more) && !PrefixSettled(Final(c, w0, run + more));
  }

  // ------------------------------------------------ one retry partition

  const PART := TP("r", 0)
  const KEY := Key(0, PART)
  const OTHER := Key(1, PART)

  function Setting(kind: Kind, names: Names, ins: Instants): Config {
    var s := Subscription(Plan("t", ["r"], Some("d")), kind);
    Config(map["t" := Route(map["t" := s], 0, 0), "r" := Route(map["t" := s], 1, 1000)], [1000], names, ins)
  }

  /** Three messages wait on the retry topic. */
  function Start(rec: Rec): World {
    World(map[PART := [rec, rec, rec]], map[], map[], {}, {}, {}, map[], map[])
  }

  lemma SettingOk(kind: Kind, names: Names, ins: Instants)
    requires kind.Batch? ==> kind.size >= 1
    ensures ConfigOk(Setting(kind, names, ins))
    ensures "r" in Setting(kind, names, ins).routes && KindOf(Setting(kind, names, ins), "r") == kind
    ensures forall rec :: Owner(Setting(kind, names, ins), "r", rec).Some?
  {
    var c := Setting(kind, names, ins);
    var s := Subscription(Plan("t", ["r"], Some("d")), kind);
    forall t | t in c.routes ensures RouteOk(c.routes, c.delays, t) {
      assert Owns(c.routes, s, 0) && Owns(c.routes, s, 1);
      assert OwnerOk(c.routes, c.delays, t, "t");
    }
    assert "t" in c.routes["r"].owners;
  }

  /** The member runs, and these are what it may see of the partition. */
  ghost predicate OnStage(rec: Rec, w: World, k: Key, S: set<nat>, starts: set<nat>) {
    && k.tp == PART && k.member in w.members && w.members[k.member] == Member(true, false, false)
    && w.Log(PART) == [rec, rec, rec] && w.Init(PART) == 0 && w.Accounted(PART) == S
    && forall o :: o in starts ==> o == 0 || (PART, o) in w.ever
  }

  /** The lane goes from `l` to `l'` by `e`, with no effect outside it. */
  ghost predicate Moves(g: Guard, kind: Kind, S: set<nat>, starts: set<nat>, l: Lane, e: Event, l': Lane) {
    && Enabled(kind, true, 3, l, e) && RunsHaveItems(l) && !e.HopAcked? && !e.TransactionCommit?
    && (e.Assign? ==> e.start in starts) && (e.Deliver? ==> !e.how.Unroutable?)
    && Guarded(g, kind, 0, {}, S, true, l, e)
    && Step(kind, true, false, 3, l, e) == Quiet(l')
  }

  function With(w: World, k: Key, l: Lane): World { w.(lanes := w.lanes[k := l]) }

  lemma CanDo(kind: Kind, names: Names, ins: Instants, rec: Rec, w: World, k: Key, S: set<nat>, starts: set<nat>, e: Event)
    requires (kind.Batch? ==> kind.size >= 1) && OnStage(rec, w, k, S, starts)
    requires Enabled(kind, true, 3, w.LaneOf(k), e) && RunsHaveItems(w.LaneOf(k)) && !e.HopAcked?
    requires (e.Assign? ==> e.start in starts) && (e.Deliver? ==> !e.how.Unroutable?)
    ensures var c := Setting(kind, names, ins);
            CanAct(c, w, k, e, HOP) && StepAt(c, w, k, e, HOP) == Step(kind, true, false, 3, w.LaneOf(k), e)
    ensures ConfigOk(Setting(kind, names, ins)) && KindOf(Setting(kind, names, ins), "r") == kind
  {
    SettingOk(kind, names, ins);
  }

  lemma Play(g: Guard, kind: Kind, names: Names, ins: Instants, rec: Rec, w0: World, w: World, k: Key, S: set<nat>, starts: set<nat>, e: Event, l': Lane)
    requires (kind.Batch? ==> kind.size >= 1) && OnStage(rec, w, k, S, starts)
    requires Reaches(g, Setting(kind, names, ins), w0, w) && Moves(g, kind, S, starts, w.LaneOf(k), e, l')
    ensures Reaches(g, Setting(kind, names, ins), w0, With(w, k, l'))
  {
    CanDo(kind, names, ins, rec, w, k, S, starts, e);
    X.QuietNext(Setting(kind, names, ins), w, k, e, HOP);
    ReachesOn(g, Setting(kind, names, ins), w0, w, At(k, e, HOP));
  }

  /** A script: the lane before each event and after the last one. */
  lemma {:induction false} PlayScript(g: Guard, kind: Kind, names: Names, ins: Instants, rec: Rec, w0: World, w: World, k: Key, S: set<nat>, starts: set<nat>,
                                      lane: nat -> Lane, event: nat -> Event, n: nat)
    requires (kind.Batch? ==> kind.size >= 1) && OnStage(rec, w, k, S, starts) && n >= 1
    requires Reaches(g, Setting(kind, names, ins), w0, w) && w.LaneOf(k) == lane(0)
    requires forall i :: 0 <= i < n ==> Moves(g, kind, S, starts, lane(i), event(i), lane(i + 1))
    ensures Reaches(g, Setting(kind, names, ins), w0, With(w, k, lane(n)))
  {
    if n == 1 {
      assert Moves(g, kind, S, starts, lane(0), event(0), lane(0 + 1));
      Play(g, kind, names, ins, rec, w0, w, k, S, starts, event(0), lane(1));
    } else {
      assert Moves(g, kind, S, starts, lane(n - 1), event(n - 1), lane(n - 1 + 1));
      PlayScript(g, kind, names, ins, rec, w0, w, k, S, starts, lane, event, n - 1);
      PlayOn(g, kind, names, ins, rec, w0, w, k, S, starts, lane(n - 1), event(n - 1), lane(n));
    }
  }

  /** One event more. */
  lemma PlayOn(g: Guard, kind: Kind, names: Names, ins: Instants, rec: Rec, w0: World, w: World, k: Key, S: set<nat>, starts: set<nat>, l: Lane, e: Event, l': Lane)
    requires (kind.Batch? ==> kind.size >= 1) && OnStage(rec, w, k, S, starts)
    requires Reaches(g, Setting(kind, names, ins), w0, With(w, k, l)) && Moves(g, kind, S, starts, l, e, l')
    ensures Reaches(g, Setting(kind, names, ins), w0, With(w, k, l'))
  {
    var w1 := With(w, k, l);
    assert OnStage(rec, w1, k, S, starts);
    Play(g, kind, names, ins, rec, w0, w1, k, S, starts, e, l');
    assert With(w1, k, l') == With(w, k, l');
  }

  /** The curtain: one member has joined. */
  function Playing(rec: Rec): World { Start(rec).(members := map[0 := Member(true, false, false)]) }

  lemma Begin(g: Guard, kind: Kind, names: Names, ins: Instants, rec: Rec)
    ensures Initial(Start(rec)) && OnStage(rec, Playing(rec), KEY, {}, {0})
    ensures Reaches(g, Setting(kind, names, ins), Start(rec), Playing(rec))
  {
    var c := Setting(kind, names, ins);
    ReachesItself(g, c, Start(rec));
    ReachesOn(g, c, Start(rec), Start(rec), Act.Join(0));
    assert Next(c, Start(rec), Act.Join(0)) == Playing(rec);
  }

  function Running(off: nat, epoch: nat, origin: Origin, stage: Stage): Task { Run([Item(off, epoch)], origin, false, stage, [], []) }

  lemma OneDecoded(x: nat, epoch: nat)
    ensures Select(Offs([Item(x, epoch)]), {}, false) == [x] && Select(Offs([Item(x, epoch)]), {}, true) == []
  {
    assert Offs([Item(x, epoch)]) == [x] && [x][1..] == [];
  }

  // -------------------------------------------------------- a stale resume

  /** The first message is parked, comes due, and its handler is held while the partition is revoked. */
  function HeldEvent(i: nat): Event {
    match i
    case 0 => Assign(0)
    case 1 => Deliver(Park)
    case 2 => Grant(0)
    case 3 => ReEnter(0)
    case 4 => Decode(0, {})
    case _ => Revoke
  }

  const HELD := Running(0, 0, Chain, Handling([0]))

  function HeldLane(i: nat): Lane {
    match i
    case 0 => UNASSIGNED
    case 1 => UNASSIGNED.(next := Some(0))
    case 2 => Lane(0, Some(1), true, Some(0), Some(0), [], None, map[0 := Parked(0, 0, false, false)], 1)
    case 3 => Lane(0, Some(1), true, Some(0), Some(0), [], None, map[0 := Parked(0, 0, true, false)], 1)
    case 4 => Lane(0, Some(1), true, Some(0), None, [], None, map[0 := Running(0, 0, Chain, Decoding)], 1)
    case 5 => Lane(0, Some(1), true, Some(0), None, [], None, map[0 := HELD], 1)
    case _ => Lane(1, None, false, None, None, [], None, map[0 := HELD], 1)
  }

  lemma HeldMoves(i: nat)
    requires i < 6
    ensures Moves(BySession, Each, {}, {0}, HeldLane(i), HeldEvent(i), HeldLane(i + 1))
  {
    OneDecoded(0, 0);
    assert Step(Each, true, false, 3, HeldLane(i), HeldEvent(i)).lane.tasks == HeldLane(i + 1).tasks;
  }

  /** Another member takes the partition over, handles the first message, commits and loses the partition again. */
  function OtherEvent(i: nat): Event {
    match i
    case 0 => Assign(0)
    case 1 => Deliver(Now)
    case _ => Decode(0, {})
  }

  function OtherLane(i: nat): Lane {
    match i
    case 0 => UNASSIGNED
    case 1 => UNASSIGNED.(next := Some(0))
    case 2 => Lane(0, Some(1), false, Some(0), None, [], None, map[0 := Running(0, 0, Delivery, Decoding)], 1)
    case 3 => Lane(0, Some(1), false, Some(0), None, [], None, map[0 := Running(0, 0, Delivery, Handling([0]))], 1)
    case 4 => Lane(0, Some(1), false, Some(0), None, [], None, map[0 := Run([Item(0, 0)], Delivery, false, Stage.Committing, [0], [])], 1)
    case _ => Lane(0, Some(1), false, None, None, [], None, map[], 1)
  }

  lemma OtherMoves(i: nat)
    requires i < 3
    ensures Moves(BySession, Each, {}, {0}, OtherLane(i), OtherEvent(i), OtherLane(i + 1))
  {
    OneDecoded(0, 0);
    assert Step(Each, true, false, 3, OtherLane(i), OtherEvent(i)).lane.tasks == OtherLane(i + 1).tasks;
  }

  function Done(rec: Rec, lanes: map<Key, Lane>): World {
    Start(rec).(members := map[0 := Member(true, false, false), 1 := Member(true, false, false)], lanes := lanes, fates := {Processed(PART, 0)})
  }

  function Regained(rec: Rec, lanes: map<Key, Lane>): World {
    Done(rec, lanes).(committed := map[PART := 1], ever := {(PART, 1)})
  }

  lemma OtherTakesOver(names: Names, ins: Instants, rec: Rec)
    ensures Reaches(BySession, Setting(Each, names, ins), Start(rec), Done(rec, map[KEY := HeldLane(6), OTHER := OtherLane(4)]))
  {
    var c, w0 := Setting(Each, names, ins), Start(rec);
    Begin(BySession, Each, names, ins, rec);
    forall i: nat | i < 6 ensures Moves(BySession, Each, {}, {0}, HeldLane(i), HeldEvent(i), HeldLane(i + 1)) { HeldMoves(i); }
    PlayScript(BySession, Each, names, ins, rec, w0, Playing(rec), KEY, {}, {0}, HeldLane, HeldEvent, 6);
    var w1 := With(Playing(rec), KEY, HeldLane(6));
    ReachesOn(BySession, c, w0, w1, Act.Join(1));
    var w2 := Next(c, w1, Act.Join(1));
    forall i: nat | i < 3 ensures Moves(BySession, Each, {}, {0}, OtherLane(i), OtherEvent(i), OtherLane(i + 1)) { OtherMoves(i); }
    PlayScript(BySession, Each, names, ins, rec, w0, w2, OTHER, {}, {0}, OtherLane, OtherEvent, 3);
    OtherHandles(names, ins, rec, With(w2, OTHER, OtherLane(3)));
  }

  lemma OtherResolves()
    ensures Enabled(Each, true, 3, OtherLane(3), Handler(0, Resolved)) && RunsHaveItems(OtherLane(3))
    ensures Step(Each, true, false, 3, OtherLane(3), Handler(0, Resolved)) == Settling(OtherLane(4), [0])
  {
    assert [] + [0] == [0];
    assert Step(Each, true, false, 3, OtherLane(3), Handler(0, Resolved)).lane.tasks == OtherLane(4).tasks;
  }

  lemma OtherHandles(names: Names, ins: Instants, rec: Rec, w: World)
    requires w == Done(rec, map[KEY := HeldLane(6), OTHER := OtherLane(3)]).(fates := {})
    requires Reaches(BySession, Setting(Each, names, ins), Start(rec), w)
    ensures Reaches(BySession, Setting(Each, names, ins), Start(rec), Done(rec, map[KEY := HeldLane(6), OTHER := OtherLane(4)]))
  {
    var c, e := Setting(Each, names, ins), Handler(0, Resolved);
    SettingOk(Each, names, ins);
    OtherResolves();
    X.FreeStep(BySession, c, w, OTHER, e, OtherLane(4), [0]);
    ReachesOn(BySession, c, Start(rec), w, At(OTHER, e, HOP));
    Handled(rec, w, Next(c, w, At(OTHER, e, HOP)));
  }

  lemma Handled(rec: Rec, w: World, w': World)
    requires w == Done(rec, map[KEY := HeldLane(6), OTHER := OtherLane(3)]).(fates := {})
    requires w' == w.(lanes := w.lanes[OTHER := OtherLane(4)], fates := w.fates + (set x | x in [0] :: Processed(PART, x)))
    ensures w' == Done(rec, map[KEY := HeldLane(6), OTHER := OtherLane(4)])
  {
    assert (set x | x in [0] :: Processed(PART, x)) == {Processed(PART, 0)};
  }

  lemma OtherCommits(names: Names, ins: Instants, rec: Rec)
    requires Reaches(BySession, Setting(Each, names, ins), Start(rec), Done(rec, map[KEY := HeldLane(6), OTHER := OtherLane(4)]))
    ensures Reaches(BySession, Setting(Each, names, ins), Start(rec), Regained(rec, map[KEY := HeldLane(6), OTHER := OtherLane(5)]))
  {
    var c, w, e := Setting(Each, names, ins), Done(rec, map[KEY := HeldLane(6), OTHER := OtherLane(4)]), CommitDone(0, true);
    SettingOk(Each, names, ins);
    X.CommitLands(BySession, c, w, OTHER, 0);
    ReachesOn(BySession, c, Start(rec), w, At(OTHER, e, HOP));
    Committed(rec, w, Next(c, w, At(OTHER, e, HOP)));
  }

  lemma Committed(rec: Rec, w: World, w': World)
    requires w == Done(rec, map[KEY := HeldLane(6), OTHER := OtherLane(4)])
    requires w' == w.(lanes := w.lanes[OTHER := FinishRun(OtherLane(4), 0, OtherLane(4).tasks[0])],
                      committed := w.committed[PART := 1], ever := w.ever + {(PART, 1)})
    ensures w' == Regained(rec, map[KEY := HeldLane(6), OTHER := OtherLane(5)])
  {
    assert FinishRun(OtherLane(4), 0, OtherLane(4).tasks[0]).tasks == OtherLane(5).tasks;
  }

  /** The partition comes back at the second message, which is parked and comes due; then the old hold ends. */
  function StaleEvent(i: nat): Event {
    match i
    case 0 => Assign(1)
    case 1 => Deliver(Park)
    case 2 => Grant(1)
    case 3 => ReEnter(1)
    case _ => Handler(0, Released)
  }

  function StaleLane(i: nat): Lane {
    var again := Running(1, 1, Chain, Decoding);
    match i
    case 0 => HeldLane(6)
    case 1 => Lane(1, Some(1), false, None, None, [], None, map[0 := HELD], 1)
    case 2 => Lane(1, Some(2), true, Some(1), Some(1), [], None, map[0 := HELD, 1 := Parked(1, 1, false, false)], 2)
    case 3 => Lane(1, Some(2), true, Some(1), Some(1), [], None, map[0 := HELD, 1 := Parked(1, 1, true, false)], 2)
    case 4 => Lane(1, Some(2), true, Some(1), None, [], None, map[0 := HELD, 1 := again], 2)
    case _ => Lane(1, Some(2), true, Some(1), None, [], None, map[0 := Closing(0), 1 := again], 2)
  }

  lemma StaleMoves(i: nat)
    requires i < 5
    ensures Moves(BySession, Each, {0}, {1}, StaleLane(i), StaleEvent(i), StaleLane(i + 1))
  {
    assert Step(Each, true, false, 3, StaleLane(i), StaleEvent(i)).lane.tasks == StaleLane(i + 1).tasks;
  }

  lemma Resumable(rec: Rec, lanes: map<Key, Lane>)
    ensures OnStage(rec, Regained(rec, lanes), KEY, {0}, {1}) && OnStage(rec, Regained(rec, lanes), OTHER, {0}, {1})
  {
    assert Regained(rec, lanes).Accounted(PART) == {0};
  }

  /** The old chain has the partition to resume, and the second message is still with its handler. */
  lemma StaleReached(names: Names, ins: Instants, rec: Rec, w: World)
    requires w == Regained(rec, map[KEY := HeldLane(6), OTHER := Revoked(OtherLane(5))])
    requires Reaches(BySession, Setting(Each, names, ins), Start(rec), w)
    ensures Reaches(BySession, Setting(Each, names, ins), Start(rec), Regained(rec, map[KEY := StaleLane(5), OTHER := Revoked(OtherLane(5))]))
  {
    Resumable(rec, w.lanes);
    forall i: nat | i < 5 ensures Moves(BySession, Each, {0}, {1}, StaleLane(i), StaleEvent(i), StaleLane(i + 1)) { StaleMoves(i); }
    PlayScript(BySession, Each, names, ins, rec, Start(rec), w, KEY, {0}, {1}, StaleLane, StaleEvent, 5);
    assert With(w, KEY, StaleLane(5)) == Regained(rec, map[KEY := StaleLane(5), OTHER := Revoked(OtherLane(5))]);
  }

  lemma OtherRevoked()
    ensures Moves(BySession, Each, {0}, {1}, OtherLane(5), Revoke, Revoked(OtherLane(5)))
  {
  }

  lemma OtherLoses(names: Names, ins: Instants, rec: Rec)
    ensures Reaches(BySession, Setting(Each, names, ins), Start(rec), Regained(rec, map[KEY := HeldLane(6), OTHER := Revoked(OtherLane(5))]))
  {
    OtherTakesOver(names, ins, rec);
    OtherCommits(names, ins, rec);
    var w := Regained(rec, map[KEY := HeldLane(6), OTHER := OtherLane(5)]);
    Resumable(rec, w.lanes);
    OtherRevoked();
    Play(BySession, Each, names, ins, rec, Start(rec), w, OTHER, {0}, {1}, Revoke, Revoked(OtherLane(5)));
    assert With(w, OTHER, Revoked(OtherLane(5))) == Regained(rec, map[KEY := HeldLane(6), OTHER := Revoked(OtherLane(5))]);
  }

  /** The second message is what the old chain's resume leaves unguarded. */
  lemma StaleUnclean(names: Names, ins: Instants, rec: Rec, w: World)
    requires OnStage(rec, w, KEY, {0}, {1}) && w.LaneOf(KEY) == StaleLane(5)
    requires WorldOk(BySession, Setting(Each, names, ins), w)
    ensures var c, a := Setting(Each, names, ins), At(KEY, Event.Resume(0), HOP);
            Can(c, w, a) && X.Doomed(BySession, c, Next(c, w, a))
  {
    var c := Setting(Each, names, ins);
    SettingOk(Each, names, ins);
    StaleGuarded();
    CanDo(Each, names, ins, rec, w, KEY, {0}, {1}, Event.Resume(0));
    StaleNext(names, ins, rec, w);
    X.UncleanResumeBreaks(c, w, KEY, 0, HOP, rec, 1);
  }

  lemma StaleGuarded()
    ensures Guards(Each, {0}, StaleLane(5), 0) && 1 in FrontOffs(StaleLane(5)) && RunsHaveItems(StaleLane(5))
    ensures Enabled(Each, true, 3, StaleLane(5), Event.Resume(0))
  {
    assert FrontOffs(StaleLane(5)) == [1] && 1 in FrontOffs(StaleLane(5)) && 1 !in {0};
    assert Pending({0}, FrontOffs(StaleLane(5)));
  }

  lemma StaleNext(names: Names, ins: Instants, rec: Rec, w: World)
    requires OnStage(rec, w, KEY, {0}, {1}) && w.LaneOf(KEY) == StaleLane(5)
    requires "r" in Setting(Each, names, ins).routes && Owner(Setting(Each, names, ins), "r", rec).Some?
    ensures X.ComesNext(Setting(Each, names, ins), w, KEY, rec) && LeftOut(w, PART, 1)
  {
  }

  /** It resumes the partition under it; the third message is delivered, handled and committed, and the second has no outcome. */
  lemma StaleResumeBreaks(names: Names, ins: Instants, rec: Rec)
    ensures ConfigOk(Setting(Each, names, ins)) && Initial(Start(rec))
    ensures Broken(Setting(Each, names, ins), Start(rec))
  {
    var c, w0 := Setting(Each, names, ins), Start(rec);
    SettingOk(Each, names, ins);
    OtherLoses(names, ins, rec);
    StaleReached(names, ins, rec, Regained(rec, map[KEY := HeldLane(6), OTHER := Revoked(OtherLane(5))]));
    var w := Regained(rec, map[KEY := StaleLane(5), OTHER := Revoked(OtherLane(5))]);
    ReachedOk(BySession, c, w0, w);
    Resumable(rec, w.lanes);
    assert w.LaneOf(KEY) == StaleLane(5);
    StaleUnclean(names, ins, rec, w);
    DoomBreaks(BySession, BySession, c, w0, w, At(KEY, Event.Resume(0), HOP));
  }

  lemma ReachedOk(g: Guard, c: Config, w0: World, w: World)
    requires ConfigOk(c) && Initial(w0) && Reaches(g, c, w0, w)
    ensures WorldOk(g, c, w)
  {
    var run :| Runs(c, w0, run) && GuardedRun(g, c, w0, run) && Final(c, w0, run) == w;
    InitialOk(g, c, w0);
    RunKeeps(g, c, w0, run);
  }

  // ------------------------------------------- a revocation in the last gap

  /**
   * On a batch topic: the first message is collected; the second is parked
   * and granted its slot when the partition is revoked, which runs the batch.
   * The second re-enters all the same and waits for the batch, which a
   * circuit hold gives up.
   */
  function GapEvent(i: nat): Event {
    match i
    case 0 => Assign(0)
    case 1 => Deliver(Park)
    case 2 => Grant(0)
    case 3 => ReEnter(0)
    case 4 => Resume(0)
    case 5 => Deliver(Park)
    case 6 => Grant(1)
    case 7 => Revoke
    case 8 => ReEnter(1)
    case 9 => Decode(2, {})
    case _ => Handler(2, Released)
  }

  function GapLane(i: nat): Lane {
    var first, flushed := [Item(0, 0)], Running(0, 0, Flush, Decoding);
    match i
    case 0 => UNASSIGNED
    case 1 => UNASSIGNED.(next := Some(0))
    case 2 => Lane(0, Some(1), true, Some(0), Some(0), [], None, map[0 := Parked(0, 0, false, false)], 1)
    case 3 => Lane(0, Some(1), true, Some(0), Some(0), [], None, map[0 := Parked(0, 0, true, false)], 1)
    case 4 => Lane(0, Some(1), true, Some(0), None, first, None, map[0 := Closing(0)], 1)
    case 5 => Lane(0, Some(1), false, None, None, first, None, map[], 1)
    case 6 => Lane(0, Some(2), true, Some(1), Some(1), first, None, map[1 := Parked(1, 0, false, false)], 2)
    case 7 => Lane(0, Some(2), true, Some(1), Some(1), first, None, map[1 := Parked(1, 0, true, false)], 2)
    case 8 => Lane(1, None, false, None, None, [], Some(2), map[1 := Parked(1, 0, true, true), 2 := flushed], 3)
    case 9 => Lane(1, None, false, None, None, [], Some(2), map[1 := Joining(1, 1, Chain, 2), 2 := flushed], 3)
    case 10 => Lane(1, None, false, None, None, [], Some(2), map[1 := Joining(1, 1, Chain, 2), 2 := Running(0, 0, Flush, Handling([0]))], 3)
    case _ => Lane(1, None, false, None, None, [], None, map[1 := Joining(1, 1, Chain, 2)], 3)
  }

  lemma GapCollects(i: nat)
    requires i < 5
    ensures Moves(ByOrder, Batch(2), {}, {0}, GapLane(i), GapEvent(i), GapLane(i + 1))
  {
    assert [] + [Item(0, 0)] == [Item(0, 0)];
    assert Step(Batch(2), true, false, 3, GapLane(i), GapEvent(i)).lane.tasks == GapLane(i + 1).tasks;
  }

  lemma GapRevokes(i: nat)
    requires 5 <= i < 8
    ensures Moves(ByOrder, Batch(2), {}, {0}, GapLane(i), GapEvent(i), GapLane(i + 1))
  {
    assert Step(Batch(2), true, false, 3, GapLane(i), GapEvent(i)).lane.tasks == GapLane(i + 1).tasks;
  }

  lemma GapReEnters(i: nat)
    requires 8 <= i < 11
    ensures Moves(ByOrder, Batch(2), {}, {0}, GapLane(i), GapEvent(i), GapLane(i + 1))
  {
    OneDecoded(0, 0);
    assert Step(Batch(2), true, false, 3, GapLane(i), GapEvent(i)).lane.tasks == GapLane(i + 1).tasks;
  }

  lemma GapReached(names: Names, ins: Instants, rec: Rec)
    ensures Reaches(ByOrder, Setting(Batch(2), names, ins), Start(rec), With(Playing(rec), KEY, GapLane(11)))
  {
    Begin(ByOrder, Batch(2), names, ins, rec);
    forall i: nat | i < 11 ensures Moves(ByOrder, Batch(2), {}, {0}, GapLane(i), GapEvent(i), GapLane(i + 1)) {
      if i < 5 { GapCollects(i); } else if i < 8 { GapRevokes(i); } else { GapReEnters(i); }
    }
    PlayScript(ByOrder, Batch(2), names, ins, rec, Start(rec), Playing(rec), KEY, {}, {0}, GapLane, GapEvent, 11);
  }

  /** It is collected, run in a batch of its own, and committed; the first message has no outcome. */
  lemma LateReEntryBreaks(names: Names, ins: Instants, rec: Rec)
    ensures ConfigOk(Setting(Batch(2), names, ins)) && Initial(Start(rec))
    ensures Broken(Setting(Batch(2), names, ins), Start(rec))
  {
    var c, w0, w := Setting(Batch(2), names, ins), Start(rec), With(Playing(rec), KEY, GapLane(11));
    SettingOk(Batch(2), names, ins);
    GapReached(names, ins, rec);
    GapStage(rec, w);
    GapOutOfOrder(names, ins, rec, w);
    DoomBreaks(ByOrder, ByOrder, c, w0, w, At(KEY, JoinWake(1), HOP));
  }

  lemma GapStage(rec: Rec, w: World)
    requires w == With(Playing(rec), KEY, GapLane(11))
    ensures OnStage(rec, w, KEY, {}, {0}) && w.LaneOf(KEY) == GapLane(11) && MembersOk(w)
  {
  }

  lemma GapEnters()
    ensures Entering(Batch(2), true, GapLane(11), JoinWake(1)) == Some(1) && 0 !in Offs(GapLane(11).batch)
    ensures Enabled(Batch(2), true, 3, GapLane(11), JoinWake(1)) && RunsHaveItems(GapLane(11))
  {
  }

  lemma GapOutOfOrder(names: Names, ins: Instants, rec: Rec, w: World)
    requires OnStage(rec, w, KEY, {}, {0}) && w.LaneOf(KEY) == GapLane(11) && MembersOk(w)
    ensures var c, a := Setting(Batch(2), names, ins), At(KEY, JoinWake(1), HOP);
            Can(c, w, a) && X.Doomed(ByOrder, c, Next(c, w, a))
  {
    var c := Setting(Batch(2), names, ins);
    SettingOk(Batch(2), names, ins);
    GapEnters();
    CanDo(Batch(2), names, ins, rec, w, KEY, {}, {0}, JoinWake(1));
    X.OutOfOrderBreaks(ByOrder, c, w, KEY, JoinWake(1), HOP, 0);
  }

  // ------------------------------------- transactions not seen through

  /** A handler begins a transaction. */
  function HandingEvent(i: nat): Event {
    match i
    case 0 => Assign(0)
    case 1 => Deliver(Now)
    case 2 => Decode(0, {})
    case _ => TransactionBegin(0)
  }

  function HandingLane(i: nat): Lane {
    var handling := Running(0, 0, Delivery, Handling([0]));
    match i
    case 0 => UNASSIGNED
    case 1 => UNASSIGNED.(next := Some(0))
    case 2 => Lane(0, Some(1), false, Some(0), None, [], None, map[0 := Running(0, 0, Delivery, Decoding)], 1)
    case 3 => Lane(0, Some(1), false, Some(0), None, [], None, map[0 := handling], 1)
    case 4 => Lane(0, Some(1), false, Some(0), None, [], None, map[0 := handling, 1 := Transaction(0, [Item(0, 0)], [], [0])], 2)
    case 5 => Lane(0, Some(1), false, Some(0), None, [], None, map[0 := handling], 2)
    case 6 => Lane(0, Some(1), false, Some(0), None, [], None, map[0 := Running(0, 0, Delivery, Forwarding([0]))], 2)
    case _ => Lane(0, Some(1), false, None, None, [], None, map[], 2)
  }

  lemma HandingMoves(i: nat)
    requires i < 4
    ensures Moves(BySession, Each, {}, {0}, HandingLane(i), HandingEvent(i), HandingLane(i + 1))
  {
    OneDecoded(0, 0);
    assert Step(Each, true, false, 3, HandingLane(i), HandingEvent(i)).lane.tasks == HandingLane(i + 1).tasks;
  }

  lemma TransactionOpen(names: Names, ins: Instants, rec: Rec)
    ensures Reaches(BySession, Setting(Each, names, ins), Start(rec), With(Playing(rec), KEY, HandingLane(4)))
  {
    Begin(BySession, Each, names, ins, rec);
    forall i: nat | i < 4 ensures Moves(BySession, Each, {}, {0}, HandingLane(i), HandingEvent(i), HandingLane(i + 1)) { HandingMoves(i); }
    PlayScript(BySession, Each, names, ins, rec, Start(rec), Playing(rec), KEY, {}, {0}, HandingLane, HandingEvent, 4);
  }

  /** The offset is committed and the message taken along. */
  function Took(w: World, l: Lane): World {
    With(w, KEY, l).(committed := map[PART := 1], ever := {(PART, 1)}, taken := {Taken(PART, 0, 0, 0)})
  }

  lemma TransactionStep(running: bool, abandoned: bool)
    ensures Enabled(Each, running, 3, HandingLane(4), TransactionCommit(1)) && RunsHaveItems(HandingLane(4))
    ensures Step(Each, running, abandoned, 3, HandingLane(4), TransactionCommit(1)) == Result(HandingLane(5), [], [0], Some(1), false)
  {
    assert HandingLane(4).tasks - {1} == HandingLane(5).tasks;
  }

  lemma TakesAlong(names: Names, ins: Instants, rec: Rec, w: World)
    requires w.members.Keys == {0} && w == With(Playing(rec), KEY, HandingLane(4)).(members := w.members)
    ensures var c, a := Setting(Each, names, ins), At(KEY, TransactionCommit(1), HOP);
            Can(c, w, a) && GuardedAct(BySession, c, w, a) && Next(c, w, a) == Took(w, HandingLane(5))
  {
    var c, e := Setting(Each, names, ins), TransactionCommit(1);
    SettingOk(Each, names, ins);
    assert w.LaneOf(KEY) == HandingLane(4) && w.Log(PART) == [rec, rec, rec];
    TransactionStep(w.members[0].running, w.members[0].abandoned);
    TookIs(c, w, e);
  }

  lemma TookIs(c: Config, w: World, e: Event)
    requires e == TransactionCommit(1) && CanAct(c, w, KEY, e, HOP) && w.LaneOf(KEY) == HandingLane(4)
    requires w.fates == {} && w.taken == {} && w.committed == map[] && w.ever == {}
    requires StepAt(c, w, KEY, e, HOP) == Result(HandingLane(5), [], [0], Some(1), false)
    ensures Acted(c, w, KEY, e, HOP) == Took(w, HandingLane(5))
  {
    assert TakenBy(w, KEY, e, [0]) == {Taken(PART, 0, 0, 0)};
    assert (set x | x in [] :: Processed(PART, x)) == {};
  }

  /** The handler throws after all, and the hop fails: the consumer stops with the message committed and nowhere. */
  lemma TransactionLoses(names: Names, ins: Instants, rec: Rec)
    ensures ConfigOk(Setting(Each, names, ins)) && Initial(Start(rec))
    ensures exists w :: Reaches(BySession, Setting(Each, names, ins), Start(rec), w) && !PrefixSettled(w)
  {
    var c, w0, w := Setting(Each, names, ins), Start(rec), With(Playing(rec), KEY, HandingLane(4));
    SettingOk(Each, names, ins);
    TransactionOpen(names, ins, rec);
    TakesAlong(names, ins, rec, w);
    ReachesOn(BySession, c, w0, w, At(KEY, TransactionCommit(1), HOP));
    var w1 := Took(w, HandingLane(5));
    Throws(names, ins, rec, w1);
    var w2 := With(w1, KEY, HandingLane(6));
    HopFails(names, ins, rec, w2);
    ReachesOn(BySession, c, w0, w2, At(KEY, HopFailed(0), HOP));
    LostAlong(Next(c, w2, At(KEY, HopFailed(0), HOP)));
  }

  /** What a member sees of the partition once its transaction took the first message along. */
  lemma TookStage(rec: Rec, w: World, l: Lane)
    requires w == With(Took(With(Playing(rec), KEY, HandingLane(4)), HandingLane(5)), KEY, l)
    ensures OnStage(rec, w, KEY, {0}, {1}) && w.LaneOf(KEY) == l
  {
    assert Taken(PART, 0, 0, 0) in w.taken;
  }

  lemma ThrowMoves()
    ensures Moves(BySession, Each, {0}, {1}, HandingLane(5), Handler(0, Threw), HandingLane(6))
  {
    assert Step(Each, true, false, 3, HandingLane(5), Handler(0, Threw)).lane.tasks == HandingLane(6).tasks;
  }

  lemma Throws(names: Names, ins: Instants, rec: Rec, w: World)
    requires w == Took(With(Playing(rec), KEY, HandingLane(4)), HandingLane(5))
    requires Reaches(BySession, Setting(Each, names, ins), Start(rec), w)
    ensures Reaches(BySession, Setting(Each, names, ins), Start(rec), With(w, KEY, HandingLane(6)))
  {
    TookStage(rec, w, HandingLane(5));
    ThrowMoves();
    Play(BySession, Each, names, ins, rec, Start(rec), w, KEY, {0}, {1}, Handler(0, Threw), HandingLane(6));
  }

  lemma HopFails(names: Names, ins: Instants, rec: Rec, w: World)
    requires w == With(Took(With(Playing(rec), KEY, HandingLane(4)), HandingLane(5)), KEY, HandingLane(6))
    ensures var c, a := Setting(Each, names, ins), At(KEY, HopFailed(0), HOP);
            && Can(c, w, a) && GuardedAct(BySession, c, w, a)
            && var w' := Next(c, w, a);
            w'.committed == w.committed && w'.fates == {} && w'.init == map[] && !OpenIn(w'.LaneOf(KEY), 0, 0) && w'.taken == w.taken
  {
    var c, e := Setting(Each, names, ins), HopFailed(0);
    TookStage(rec, w, HandingLane(6));
    FailStops();
    CanDo(Each, names, ins, rec, w, KEY, {0}, {1}, e);
    FailLeaves(c, w);
  }

  lemma FailStops()
    ensures Enabled(Each, true, 3, HandingLane(6), HopFailed(0)) && RunsHaveItems(HandingLane(6))
    ensures !OpenIn(After(Step(Each, true, false, 3, HandingLane(6), HopFailed(0))), 0, 0)
  {
  }

  /** The consumer stops; nothing is settled, taken or committed. */
  lemma FailLeaves(c: Config, w: World)
    requires CanAct(c, w, KEY, HopFailed(0), HOP)
    requires !OpenIn(After(StepAt(c, w, KEY, HopFailed(0), HOP)), 0, 0)
    ensures var w' := Next(c, w, At(KEY, HopFailed(0), HOP));
            w'.committed == w.committed && w'.fates == w.fates && w'.init == w.init && w'.taken == w.taken && !OpenIn(w'.LaneOf(KEY), 0, 0)
  {
    ActedIs(c, w, KEY, HopFailed(0), HOP);
    FatesAfter(c, w, KEY, HopFailed(0), HOP);
  }

  lemma LostAlong(w: World)
    requires w.committed == map[PART := 1] && w.fates == {} && w.init == map[]
    requires w.taken == {Taken(PART, 0, 0, 0)} && !OpenIn(w.LaneOf(KEY), 0, 0)
    ensures !PrefixSettled(w)
  {
    assert !HasOutcome(w, PART, 0) && !Riding(w, PART, 0);
  }

  // ------------------------------------------- a commit after leaving

  /** A stop is begun and gives up on the handler; the member leaves its group. */
  function Abandoned(rec: Rec): World {
    With(Playing(rec), KEY, HandingLane(4)).(members := map[0 := Member(false, true, true)])
  }

  lemma MemberLeaves(names: Names, ins: Instants, rec: Rec)
    ensures Reaches(BySession, Setting(Each, names, ins), Start(rec), Abandoned(rec))
  {
    var c, w0, w := Setting(Each, names, ins), Start(rec), With(Playing(rec), KEY, HandingLane(4));
    TransactionOpen(names, ins, rec);
    MemberStops(rec);
    ReachesOn(BySession, c, w0, w, Act.Stop(0));
    MemberGone(rec);
    ReachesOn(BySession, c, w0, StopMember(w, 0), Leave(0));
    assert Next(c, StopMember(w, 0), Leave(0)) == Abandoned(rec);
  }

  lemma MemberStops(rec: Rec)
    ensures var w := With(Playing(rec), KEY, HandingLane(4));
            StopMember(w, 0) == w.(members := map[0 := Member(false, false, false)])
  {
    assert Stopped(HandingLane(4)) == HandingLane(4);
  }

  lemma MemberGone(rec: Rec)
    ensures Busy(With(Playing(rec), KEY, HandingLane(4)).(members := map[0 := Member(false, false, false)]), 0)
  {
    var w := With(Playing(rec), KEY, HandingLane(4)).(members := map[0 := Member(false, false, false)]);
    assert KEY in w.lanes && 0 in w.lanes[KEY].tasks && w.lanes[KEY].tasks[0].Run?;
  }

  /** The transaction it had open commits its offset all the same. */
  lemma CommitAfterLeave(names: Names, ins: Instants, rec: Rec)
    ensures ConfigOk(Setting(Each, names, ins)) && Initial(Start(rec))
    ensures exists w :: Reaches(BySession, Setting(Each, names, ins), Start(rec), w) && HasLeft(w, 0) &&
                        CommitsAt(Setting(Each, names, ins), w, KEY, TransactionCommit(1), HOP)
  {
    SettingOk(Each, names, ins);
    MemberLeaves(names, ins, rec);
    TakesAlong(names, ins, rec, Abandoned(rec));
    assert CommitsAt(Setting(Each, names, ins), Abandoned(rec), KEY, TransactionCommit(1), HOP);
  }
}
