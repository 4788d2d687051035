/** Runs of a consumption that show what can go wrong: messages handed over out of order, and a stop that hangs. */
module ConsumingExamples {
  import opened Basics
  import opened Scheduler
  import opened Consuming
  import opened ConsumingRuns
  import opened Watermarks

  // -------------------------------- two changes of the assignment, unannounced

  function Turn(p: Key, q: Key, i: nat): Move {
    match i
    case 0 => Open
    case 1 => Read(q, 0, {})
    case 2 => Read(p, 5, {})
    case 3 => Read(p, 6, {})
    case 4 => Read(q, 1, {})
    case 5 => Rebalance({q})
    case 6 => Settle(q, {})
    case 7 => Rebalance({p, q})
    case 8 => Read(p, 5, {})
    case 9 => Settle(q, {})
    case _ => Settle(p, {})
  }

  function M(offset: nat): Message { Message(offset, 0) }

  /** One slot, five places; the stream in use is the first. */
  function Making(queues: Queues, ready: seq<Key>, running: Key, queued: nat, marks: Marks, assignments: Option<set<Key>>, taken: Queues): State {
    State(Line(1, queues, ready, set k | k in ready, {running}, {}, 1, queued, false), marks,
          Holding({}, {}, true, 1, map[]), Reading, 5, assignments, taken)
  }

  function Scene(p: Key, q: Key, i: nat): State {
    var q0, both := map[q := [M(0)]], map[q := [M(0), M(1)], p := [M(5)]];
    var seen := Marks(map[q := 1, p := 6], map[], {q});
    match i
    case 0 => Initial(1, 5)
    case 1 => Initial(1, 5).(holding := Holding({}, {}, true, 1, map[]), reader := Reading)
    case 2 => Making(map[q := []], [], q, 0, Marks(map[q := 0], map[], {q}), None, q0)
    case 3 => Making(map[q := [], p := [M(5)]], [p], q, 1, Marks(map[q := 0, p := 5], map[], {q}), None, q0)
    case 4 => Making(map[q := [], p := [M(5), M(6)]], [p], q, 2, Marks(map[q := 0, p := 6], map[], {q}), None, q0)
    case 5 => Making(map[q := [M(1)], p := [M(5), M(6)]], [p], q, 3, seen, None, q0)
    case 6 => Making(map[q := [M(1)], p := [M(5), M(6)]], [p], q, 3, seen, Some({q}), q0)
    case 7 => Making(map[q := [], p := [M(6)]], [p], q, 1, Marks(map[q := 1], map[p := 1], {q}), Some({q}), both)
    case 8 => Making(map[q := [], p := [M(6)]], [p], q, 1, Marks(map[q := 1], map[p := 1], {q}), Some({p, q}), both)
    case 9 => Making(map[q := [], p := [M(6), Message(5, 1)]], [p], q, 2, Marks(map[q := 1, p := 5], map[p := 1], {q}), Some({p, q}), both)
    case 10 => Making(map[q := [], p := [Message(5, 1)]], [], p, 1, Marks(map[q := 1, p := 5], map[p := 1], {p, q}),
                      Some({p, q}), map[q := [M(0), M(1)], p := [M(5), M(6)]])
    case _ => Making(map[q := [], p := []], [], p, 0, Marks(map[q := 1, p := 5], map[p := 1], {p, q}),
                     Some({p, q}), map[q := [M(0), M(1)], p := [M(5), M(6), Message(5, 1)]])
  }

  ghost predicate Leads(s: State, move: Move, t: State) { Valid(s) ==> Can(s, move) && Next(s, move) == t }

  /** A dispatch with no slot free, or no one in line. */
  lemma Rests(s: State, parks: Parks)
    requires Shaped(s.line) && (s.line.active >= s.line.concurrency || s.line.ready == [])
    ensures Dispatch(s, parks) == s
  {
  }

  /** The last free slot takes a message of a partition that is held. */
  lemma TakesOne(s: State, parks: Parks)
    requires Shaped(s.line) && !s.line.stopped && s.line.active + 1 == s.line.concurrency && s.line.ready != []
    requires s.line.ready[0] !in s.line.paused && s.IsAssigned(s.line.ready[0])
    ensures At(s.line.queues, s.line.ready[0]) != []
    ensures Dispatch(s, parks) == Begun(Taken(s), s.line.ready[0], s.line.queues[s.line.ready[0]][0], parks)
  {
    TakeKeeps(s.line);
    BegunKeeps(Taken(s), s.line.ready[0], s.line.queues[s.line.ready[0]][0], parks);
  }

  /** A read while no slot is free: the message is queued. */
  lemma ReadQueues(s: State, k: Key, offset: nat)
    requires Shaped(s.line) && s.reader.Reading? && Admits(s, k, offset) && s.line.queued < s.bufferedMessages
    requires s.line.active >= s.line.concurrency
    ensures Next(s, Read(k, offset, {})) == Pushed(s, k, offset)
  {
    assert s.(reader := Reading) == s;
    PushedShaped(s, k, offset);
    Rests(Pushed(s, k, offset), {});
  }

  lemma PushedMaking(queues: Queues, ready: seq<Key>, running: Key, queued: nat, marks: Marks, assignments: Option<set<Key>>, taken: Queues, k: Key, offset: nat)
    ensures var s := Making(queues, ready, running, queued, marks, assignments, taken);
            Pushed(s, k, offset) ==
            Making(queues[k := At(queues, k) + [Message(offset, Tag(marks.watermarks, k))]], if k in ready || k == running then ready else ready + [k], running,
                   queued + 1, marks.(lastQueued := marks.lastQueued[k := offset]), assignments, taken)
  {
    var s := Making(queues, ready, running, queued, marks, assignments, taken);
    var longer := ready + [k];
    assert (set o | o in longer) == (set o | o in ready) + {k};
  }

  lemma PushedFirst(p: Key, q: Key, i: nat)
    requires p != q && (i == 2 || i == 4)
    ensures Pushed(Scene(p, q, i), Turn(p, q, i).key, Turn(p, q, i).offset) == Scene(p, q, i + 1)
  {
    var l, s := Scene(p, q, i).line, Scene(p, q, i);
    PushedMaking(l.queues, l.ready, q, l.queued, s.marks, s.assignments, s.taken, Turn(p, q, i).key, Turn(p, q, i).offset);
    if i == 2 { assert [] + [M(5)] == [M(5)]; } else { assert [] + [M(1)] == [M(1)]; }
  }

  lemma PushedBehind(p: Key, q: Key, i: nat)
    requires p != q && (i == 3 || i == 8)
    ensures Pushed(Scene(p, q, i), Turn(p, q, i).key, Turn(p, q, i).offset) == Scene(p, q, i + 1)
  {
    var l, s := Scene(p, q, i).line, Scene(p, q, i);
    PushedMaking(l.queues, l.ready, q, l.queued, s.marks, s.assignments, s.taken, Turn(p, q, i).key, Turn(p, q, i).offset);
    if i == 3 { assert [M(5)] + [M(6)] == [M(5), M(6)]; } else { assert [M(6)] + [Message(5, 1)] == [M(6), Message(5, 1)]; }
  }

  lemma Reads(p: Key, q: Key, i: nat)
    requires p != q
    requires 2 <= i <= 4 || i == 8
    requires Valid(Scene(p, q, i))
    ensures Leads(Scene(p, q, i), Turn(p, q, i), Scene(p, q, i + 1))
  {
    ReadQueues(Scene(p, q, i), Turn(p, q, i).key, Turn(p, q, i).offset);
    if i == 2 || i == 4 { PushedFirst(p, q, i); } else { PushedBehind(p, q, i); }
  }

  /** A read while one slot is free and nobody is in line: the message is taken. */
  lemma ReadTakes(s: State, k: Key, offset: nat)
    requires Shaped(s.line) && s.reader.Reading? && Admits(s, k, offset) && s.line.queued < s.bufferedMessages
    requires s.line.active + 1 == s.line.concurrency && s.line.ready == [] && CanLineUp(Pushed(s, k, offset).line.(waiting := {}), k) && s.line.waiting == {}
    ensures var u := Pushed(s, k, offset);
            u.line.ready == [k] && At(u.line.queues, k) != [] && Next(s, Read(k, offset, {})) == Begun(Taken(u), k, u.line.queues[k][0], {})
  {
    assert s.(reader := Reading) == s;
    PushedShaped(s, k, offset);
    TakesOne(Pushed(s, k, offset), {});
  }

  lemma FirstTaken(p: Key, q: Key)
    requires p != q
    ensures var u := Pushed(Scene(p, q, 1), q, 0);
            u.line.ready == [q] && u.line.queues == map[q := [M(0)]] && Begun(Taken(u), q, M(0), {}) == Scene(p, q, 2)
  {
    var t := Scene(p, q, 2);
    assert [] + [M(0)] == [M(0)] && [M(0)][1..] == [] && [q][1..] == [];
    var u := Pushed(Scene(p, q, 1), q, 0);
    assert u.line.queues == map[q := [M(0)]];
    var r := Begun(Taken(u), q, M(0), {});
    assert r.line.queues == t.line.queues && r.taken == t.taken && r.marks == t.marks;
    assert r.line.waiting == t.line.waiting && r.line.running == t.line.running;
  }

  lemma FirstRead(p: Key, q: Key)
    requires p != q
    requires Valid(Scene(p, q, 1))
    ensures Leads(Scene(p, q, 1), Turn(p, q, 1), Scene(p, q, 2))
  {
    FirstTaken(p, q);
    ReadTakes(Scene(p, q, 1), q, 0);
  }

  /** The end of a delivery that frees the only slot. */
  lemma SettleServes(s: State, k: Key)
    requires Shaped(s.line) && !s.line.stopped && k in s.line.running && s.line.active == s.line.concurrency
    requires var l := Freed(s.line, k); l.ready != [] && l.ready[0] !in l.paused && s.IsAssigned(l.ready[0])
    ensures var t := s.(line := Freed(s.line, k));
            At(t.line.queues, t.line.ready[0]) != [] &&
            Next(s, Settle(k, {})) == Begun(Taken(t), t.line.ready[0], t.line.queues[t.line.ready[0]][0], {})
  {
    FreeKeeps(s.line, k);
    TakesOne(s.(line := Freed(s.line, k)), {});
  }

  /** What is left once the first in line was taken for nothing: its partition is not held any more. */
  function Skipped(t: State): State
    requires t.line.ready != [] && At(t.line.queues, t.line.ready[0]) != []
  {
    var p := t.line.ready[0];
    var u := Begun(Taken(t), p, t.line.queues[p][0], {});
    u.(line := Freed(u.line, p))
  }

  lemma DispatchSkips(t: State)
    requires Shaped(t.line) && !t.line.stopped && t.line.active == 0 && t.line.concurrency == 1
    requires t.line.ready != [] && t.line.ready[0] !in t.line.paused && !t.IsAssigned(t.line.ready[0])
    ensures At(t.line.queues, t.line.ready[0]) != [] && Shaped(Skipped(t).line)
    ensures Dispatch(t, {}) == Dispatch(Dispatch(Skipped(t), {}), {})
  {
    TakeKeeps(t.line);
    var p := t.line.ready[0];
    Skips(Taken(t), p, t.line.queues[p][0]);
  }

  /** A delivery that ends on the spot. */
  lemma Skips(s: State, k: Key, m: Message)
    requires Shaped(s.line) && !s.line.stopped && k in s.line.running && !s.IsAssigned(k)
    ensures var u := Begun(s, k, m, {}); Shaped(u.(line := Freed(u.line, k)).line) && Deliver(s, k, m, {}) == Dispatch(u.(line := Freed(u.line, k)), {})
  {
    BegunKeeps(s, k, m, {});
    FreeKeeps(Begun(s, k, m, {}).line, k);
  }

  /** After the other partition's delivery, before the dispatch: both stand in line. */
  function BothInLine(p: Key, q: Key): State {
    var s := Scene(p, q, 6);
    s.(line := s.line.(ready := [p, q], waiting := {p, q}, running := {}, active := 0))
  }

  /** The skipped message is gone, its partition behind the other, and its watermark forgotten. */
  function OneSkipped(p: Key, q: Key): State {
    var s := Scene(p, q, 6);
    s.(line := s.line.(queues := map[q := [M(1)], p := [M(6)]], ready := [q, p], waiting := {p, q}, running := {}, active := 0, queued := 2),
       marks := Marks(map[q := 1], map[p := 1], {q}), taken := map[q := [M(0)], p := [M(5)]])
  }

  lemma FreedScene(p: Key, q: Key)
    requires p != q
    ensures Scene(p, q, 6).(line := Freed(Scene(p, q, 6).line, q)) == BothInLine(p, q)
    ensures !Scene(p, q, 6).line.stopped && q in Scene(p, q, 6).line.running && Turn(p, q, 6) == Settle(q, {})
  {
    var l := Scene(p, q, 6).line;
    assert [p] + [q] == [p, q] && {q} - {q} == {};
    assert l.waiting == {p};
    assert CanLineUp(FreeSlot(l, q), q);
  }

  lemma SkippedScene(p: Key, q: Key)
    requires p != q
    ensures Skipped(BothInLine(p, q)) == OneSkipped(p, q)
  {
    var t := BothInLine(p, q);
    var u := Begun(Taken(t), p, M(5), {});
    assert [M(5), M(6)][1..] == [M(6)] && [p, q][1..] == [q] && [] + [M(5)] == [M(5)];
    assert u.line.queues == map[q := [M(1)], p := [M(6)]] && u.line.ready == [q] && u.line.waiting == {q} && u.line.running == {p};
    assert u.marks == Marks(map[q := 1], map[p := 1], {q});
    assert {p} - {p} == {} && {q} + {p} == {p, q} && [q] + [p] == [q, p];
    assert CanLineUp(FreeSlot(u.line, p), p);
  }

  lemma ServedScene(p: Key, q: Key)
    requires p != q
    ensures Begun(Taken(OneSkipped(p, q)), q, M(1), {}) == Scene(p, q, 7)
  {
    var t, r := OneSkipped(p, q), Begun(Taken(OneSkipped(p, q)), q, M(1), {});
    var s := Scene(p, q, 7);
    assert [q, p][1..] == [p] && [M(1)][1..] == [] && [M(0)] + [M(1)] == [M(0), M(1)];
    assert r.line.queues == s.line.queues && r.line.ready == s.line.ready && r.line.waiting == s.line.waiting && r.line.running == s.line.running;
    assert r.taken == s.taken && r.marks == s.marks;
  }

  /** The first message of the partition that is not held is skipped, and the other partition served. */
  lemma Skip(p: Key, q: Key)
    requires p != q && Valid(Scene(p, q, 6))
    ensures Leads(Scene(p, q, 6), Turn(p, q, 6), Scene(p, q, 7))
  {
    FreedScene(p, q);
    SettleLeads(p, q, Scene(p, q, 6), Scene(p, q, 7));
  }

  lemma SettleLeads(p: Key, q: Key, s: State, r: State)
    requires p != q && Shaped(s.line) && !s.line.stopped && q in s.line.running && s.(line := Freed(s.line, q)) == BothInLine(p, q) && r == Scene(p, q, 7)
    ensures Leads(s, Settle(q, {}), r)
  {
    if Shaped(BothInLine(p, q).line) { SkipDispatches(p, q); }
    SettleDispatches(s, q, BothInLine(p, q), r);
  }

  lemma SettleDispatches(s: State, k: Key, t: State, r: State)
    requires Shaped(s.line) && !s.line.stopped && k in s.line.running && t == s.(line := Freed(s.line, k))
    requires Shaped(t.line) ==> Dispatch(t, {}) == r
    ensures Leads(s, Settle(k, {}), r)
  {
    FreeKeeps(s.line, k);
  }

  lemma SkipDispatches(p: Key, q: Key)
    requires p != q && Shaped(BothInLine(p, q).line)
    ensures Dispatch(BothInLine(p, q), {}) == Scene(p, q, 7)
  {
    DispatchSkips(BothInLine(p, q));
    SkippedScene(p, q);
    SkippedServes(p, q);
  }

  lemma SkippedServes(p: Key, q: Key)
    requires p != q && Shaped(OneSkipped(p, q).line)
    ensures Dispatch(Dispatch(OneSkipped(p, q), {}), {}) == Scene(p, q, 7)
  {
    TakesOne(OneSkipped(p, q), {});
    ServedScene(p, q);
    ServedRests(p, q);
  }

  lemma ServedRests(p: Key, q: Key)
    requires p != q && Shaped(Scene(p, q, 7).line)
    ensures Dispatch(Scene(p, q, 7), {}) == Scene(p, q, 7)
  {
    Rests(Scene(p, q, 7), {});
  }

  lemma ServesIs(s: State, k: Key, p: Key, r: State)
    requires Shaped(s.line) && !s.line.stopped && k in s.line.running && s.line.active == s.line.concurrency && p !in s.line.paused && s.IsAssigned(p)
    requires Freed(s.line, k) == s.line.(ready := [p], waiting := {p}, running := {}, active := 0)
    requires var t := s.(line := s.line.(ready := [p], waiting := {p}, running := {}, active := 0));
             At(t.line.queues, p) != [] && Begun(Taken(t), p, t.line.queues[p][0], {}) == r
    ensures Leads(s, Settle(k, {}), r)
  {
    SettleServes(s, k);
  }

  /** Held again, its messages are served in the order they were queued in. */
  lemma Serves(p: Key, q: Key, i: nat)
    requires p != q && 9 <= i <= 10 && Valid(Scene(p, q, i))
    ensures Leads(Scene(p, q, i), Turn(p, q, i), Scene(p, q, i + 1))
  {
    ServeLine(p, q, i);
    ServeScene(p, q, i);
    ServesIs(Scene(p, q, i), Turn(p, q, i).key, p, Scene(p, q, i + 1));
  }

  lemma ServeLine(p: Key, q: Key, i: nat)
    requires p != q && 9 <= i <= 10
    ensures var s, l := Scene(p, q, i), Freed(Scene(p, q, i).line, Turn(p, q, i).key);
            l == s.line.(ready := [p], waiting := {p}, running := {}, active := 0)
    ensures var s, k := Scene(p, q, i), Turn(p, q, i).key;
            !s.line.stopped && k in s.line.running && s.line.active == s.line.concurrency && p !in s.line.paused && s.IsAssigned(p) && Turn(p, q, i) == Settle(k, {})
  {
    var l := Scene(p, q, i).line;
    if i == 9 {
      assert {q} - {q} == {} && l.waiting == {p} && l.ready == [p];
      assert !CanLineUp(FreeSlot(l, q), q);
    } else {
      assert {p} - {p} == {} && [] + [p] == [p] && l.waiting == {} && {} + {p} == {p};
      assert CanLineUp(FreeSlot(l, p), p);
    }
  }

  lemma ServeScene(p: Key, q: Key, i: nat)
    requires p != q && 9 <= i <= 10
    ensures var s := Scene(p, q, i);
            var t := s.(line := s.line.(ready := [p], waiting := {p}, running := {}, active := 0));
            At(t.line.queues, p) != [] && Begun(Taken(t), p, t.line.queues[p][0], {}) == Scene(p, q, i + 1)
  {
    var s, r := Scene(p, q, i), Scene(p, q, i + 1);
    var t := s.(line := s.line.(ready := [p], waiting := {p}, running := {}, active := 0));
    assert [M(6), Message(5, 1)][1..] == [Message(5, 1)] && [Message(5, 1)][1..] == [] && [p][1..] == [];
    assert [M(5)] + [M(6)] == [M(5), M(6)] && [M(5), M(6)] + [Message(5, 1)] == [M(5), M(6), Message(5, 1)];
    var u := Begun(Taken(t), p, t.line.queues[p][0], {});
    assert u.line.queues == r.line.queues && u.line.waiting == r.line.waiting && u.line.running == r.line.running;
    assert u.taken == r.taken && u.marks == r.marks;
  }

  lemma Opens(p: Key, q: Key)
    requires Valid(Scene(p, q, 0))
    ensures Leads(Scene(p, q, 0), Turn(p, q, 0), Scene(p, q, 1))
  {
    OpenIs(Scene(p, q, 0), Scene(p, q, 1));
  }

  lemma OpenIs(s: State, r: State)
    requires Can(s, Open) && r == Opened(s)
    ensures Leads(s, Open, r)
  {
  }

  lemma RebalanceIs(s: State, now: set<Key>, r: State)
    requires r == s.(assignments := Some(now))
    ensures Leads(s, Rebalance(now), r)
  {
  }

  lemma RebalancesAway(p: Key, q: Key)
    requires Valid(Scene(p, q, 5))
    ensures Leads(Scene(p, q, 5), Turn(p, q, 5), Scene(p, q, 6))
  {
    RebalanceIs(Scene(p, q, 5), {q}, Scene(p, q, 6));
  }

  lemma RebalancesBack(p: Key, q: Key)
    requires Valid(Scene(p, q, 7))
    ensures Leads(Scene(p, q, 7), Turn(p, q, 7), Scene(p, q, 8))
  {
    RebalanceIs(Scene(p, q, 7), {p, q}, Scene(p, q, 8));
  }

  // ------------------------------------------------------------- scripts

  function Script(turn: nat -> Move, i: nat, n: nat): seq<Move>
    decreases n - i
  {
    if i >= n then [] else [turn(i)] + Script(turn, i + 1, n)
  }

  /** One move, and then the rest of the run. */
  lemma MovesOn(s: State, move: Move, rest: seq<Move>, t: State, r: State)
    requires Valid(s) && Can(s, move) && Next(s, move) == t && Valid(t) && Playable(t, rest) && Play(t, rest) == r
    ensures Playable(s, [move] + rest) && Play(s, [move] + rest) == r
  {
    assert ([move] + rest)[0] == move && ([move] + rest)[1..] == rest;
  }

  lemma {:induction false} PlaysOut(scene: nat -> State, turn: nat -> Move, i: nat, n: nat)
    requires i <= n && Valid(scene(i)) && forall j :: i <= j < n ==> Leads(scene(j), turn(j), scene(j + 1))
    ensures Playable(scene(i), Script(turn, i, n)) && Play(scene(i), Script(turn, i, n)) == scene(n)
    decreases n - i
  {
    if i < n {
      assert Leads(scene(i), turn(i), scene(i + 1));
      NextKeeps(scene(i), turn(i));
      PlaysOut(scene, turn, i + 1, n);
      MovesOn(scene(i), turn(i), Script(turn, i + 1, n), scene(i + 1), scene(n));
    }
  }

  function Rest(p: Key, q: Key, i: nat): seq<Move> { Script((j: nat) => Turn(p, q, j), i, 11) }

  lemma OneMove(p: Key, q: Key, i: nat)
    requires p != q && i < 11 && Valid(Scene(p, q, i))
    ensures Leads(Scene(p, q, i), Turn(p, q, i), Scene(p, q, i + 1))
  {
    if i == 0 { Opens(p, q); }
    else if i == 5 { RebalancesAway(p, q); }
    else if i == 7 { RebalancesBack(p, q); }
    else if i == 1 { FirstRead(p, q); }
    else if i == 6 { Skip(p, q); }
    else if i >= 9 { Serves(p, q, i); }
    else { Reads(p, q, i); }
  }

  /**
   * A run without a join: the assignment changes twice, and a delivery is
   * skipped in between while the other partition takes the slot. The client
   * reads the partition again from where it was committed, and its handler
   * gets message 6 before message 5.
   */
  lemma OffsetsGoDown(p: Key, q: Key)
    requires p != q
    ensures Valid(Initial(1, 5)) && Playable(Initial(1, 5), Rest(p, q, 0))
    ensures At(Play(Initial(1, 5), Rest(p, q, 0)).taken, p) == [M(5), M(6), Message(5, 1)]
    ensures Play(Initial(1, 5), Rest(p, q, 0)).IsAssigned(p) && !Announced(Rest(p, q, 0), false)
  {
    InitialValid(1, 5);
    forall i: nat | i < 11 ensures Leads(Scene(p, q, i), Turn(p, q, i), Scene(p, q, i + 1)) {
      if Valid(Scene(p, q, i)) { OneMove(p, q, i); }
    }
    PlaysOut((j: nat) => Scene(p, q, j), (j: nat) => Turn(p, q, j), 0, 11);
    NotAnnounced(p, q);
    InTheEnd(p, q);
  }

  lemma InTheEnd(p: Key, q: Key)
    requires p != q
    ensures At(Scene(p, q, 11).taken, p) == [M(5), M(6), Message(5, 1)] && Scene(p, q, 11).IsAssigned(p)
  {
  }

  lemma NotAnnounced(p: Key, q: Key)
    ensures !Announced(Rest(p, q, 0), false)
  {
    forall i: nat | i < 11 ensures Rest(p, q, i) != [] && Rest(p, q, i)[0] == Turn(p, q, i) && Rest(p, q, i)[1..] == Rest(p, q, i + 1) {}
    assert !Announced(Rest(p, q, 7), true);
    assert !Announced(Rest(p, q, 6), true);
    assert !Announced(Rest(p, q, 5), false);
    assert !Announced(Rest(p, q, 4), false);
    assert !Announced(Rest(p, q, 3), false);
    assert !Announced(Rest(p, q, 2), false);
    assert !Announced(Rest(p, q, 1), false);
  }

  // ------------------------------------------------------- a stop that hangs

  function LastTurn(p: Key, i: nat): Move {
    match i
    case 0 => Rebalance({p})
    case 1 => Open
    case 2 => Read(p, 0, {})
    case 3 => Read(p, 1, {})
    case 4 => StopBegins
    case _ => Read(p, 2, {})
  }

  function Filling(p: Key, queue: seq<Message>, last: nat, stopped: bool, reader: Reader): State {
    State(Line(1, map[p := queue], [], {}, {p}, {}, 1, |queue|, stopped), Marks(map[p := last], map[], {p}),
          Holding({p}, {}, !stopped, 1, map[]), reader, 1, Some({p}), map[p := [M(0)]])
  }

  function LastScene(p: Key, i: nat): State {
    match i
    case 0 => Initial(1, 1)
    case 1 => Initial(1, 1).(assignments := Some({p}))
    case 2 => Initial(1, 1).(assignments := Some({p}), holding := Holding({p}, {}, true, 1, map[]), reader := Reading)
    case 3 => Filling(p, [], 0, false, Reading)
    case 4 => Filling(p, [M(1)], 1, false, Reading)
    case 5 => Filling(p, [M(1)], 1, true, Reading)
    case _ => Filling(p, [M(1)], 1, true, Waiting(p, 2))
  }

  lemma LastTakenScene(p: Key)
    ensures var u := Pushed(LastScene(p, 2), p, 0);
            u.line.ready == [p] && u.line.queues == map[p := [M(0)]] && Begun(Taken(u), p, M(0), {}) == LastScene(p, 3)
  {
    var s, t := LastScene(p, 2), LastScene(p, 3);
    assert [] + [M(0)] == [M(0)] && [M(0)][1..] == [] && [p][1..] == [];
    var u := Pushed(s, p, 0);
    assert u.line.queues == map[p := [M(0)]];
    var r := Begun(Taken(u), p, M(0), {});
    assert r.line.queues == t.line.queues && r.taken == t.taken && r.marks == t.marks;
    assert r.line.waiting == t.line.waiting && r.line.running == t.line.running;
  }

  lemma LastTaken(p: Key)
    requires Valid(LastScene(p, 2))
    ensures Leads(LastScene(p, 2), LastTurn(p, 2), LastScene(p, 3))
  {
    LastTakenScene(p);
    ReadTakes(LastScene(p, 2), p, 0);
  }

  lemma LastQueued(p: Key)
    requires Valid(LastScene(p, 3))
    ensures Leads(LastScene(p, 3), LastTurn(p, 3), LastScene(p, 4))
  {
    ReadQueues(LastScene(p, 3), p, 1);
    var s, t := LastScene(p, 3), LastScene(p, 4);
    assert [] + [M(1)] == [M(1)];
    assert Appended(s, p, 1) == t.line.queues;
    assert s.marks.lastQueued[p := 1] == t.marks.lastQueued;
  }

  lemma LastStops(p: Key)
    requires Valid(LastScene(p, 4))
    ensures Leads(LastScene(p, 4), LastTurn(p, 4), LastScene(p, 5))
  {
    StopIs(LastScene(p, 4));
  }

  lemma StopIs(s: State)
    requires Shaped(s.line)
    ensures Next(s, StopBegins) == Stopping(s)
  {
  }

  lemma LastWaits(p: Key)
    requires Valid(LastScene(p, 5))
    ensures Leads(LastScene(p, 5), LastTurn(p, 5), LastScene(p, 6))
  {
    FullWaits(LastScene(p, 5), p, 2);
  }

  lemma FullWaits(s: State, k: Key, offset: nat)
    requires Shaped(s.line) && s.reader.Reading? && s.line.queued >= s.bufferedMessages
    ensures Next(s, Read(k, offset, {})) == s.(reader := Waiting(k, offset))
  {
  }

  lemma LastOpens(p: Key, i: nat)
    requires i < 2 && Valid(LastScene(p, i))
    ensures Leads(LastScene(p, i), LastTurn(p, i), LastScene(p, i + 1))
  {
    if i == 0 { RebalanceIs(LastScene(p, 0), {p}, LastScene(p, 1)); } else { OpenIs(LastScene(p, 1), LastScene(p, 2)); }
  }

  lemma LastMove(p: Key, i: nat)
    requires i < 6 && Valid(LastScene(p, i))
    ensures Leads(LastScene(p, i), LastTurn(p, i), LastScene(p, i + 1))
  {
    if i < 2 { LastOpens(p, i); }
    else if i == 2 { LastTaken(p); }
    else if i == 3 { LastQueued(p); }
    else if i == 4 { LastStops(p); }
    else { LastWaits(p); }
  }

  function LastTurns(p: Key): seq<Move> { Script(TurnsOf(p), 0, 6) }

  function TurnsOf(p: Key): nat -> Move { (i: nat) => LastTurn(p, i) }

  function ScenesOf(p: Key): nat -> State { (i: nat) => LastScene(p, i) }

  /** The reader waits, and goes on waiting through everything but another join or stop: the stop never ends. */
  ghost predicate Hangs(s: State)
    requires Valid(s)
  {
    && s.line.stopped && s.reader.Waiting?
    && forall moves: seq<Move> :: Playable(s, moves) && (forall i :: 0 <= i < |moves| ==> !moves[i].Join? && !moves[i].StopBegins?) ==>
         Play(s, moves).reader == s.reader && !Can(Play(s, moves), StopEnds)
  }

  /**
   * One slot and one place in the buffer, both taken when the stop begins,
   * and the stream hands over one message more: the stop hangs.
   */
  lemma StopCanHang(p: Key)
    ensures Valid(Initial(1, 1)) && Playable(Initial(1, 1), LastTurns(p)) && Hangs(Play(Initial(1, 1), LastTurns(p)))
  {
    LastPlaysOut(p);
    HangsThere(Play(Initial(1, 1), LastTurns(p)));
  }

  lemma LastPlaysOut(p: Key)
    ensures Valid(Initial(1, 1)) && Playable(Initial(1, 1), LastTurns(p))
    ensures var s := Play(Initial(1, 1), LastTurns(p)); s.line.stopped && s.reader.Waiting?
  {
    InitialValid(1, 1);
    LastMoves(p);
    LastEnds(p);
    PlaysOut(ScenesOf(p), TurnsOf(p), 0, 6);
  }

  lemma LastEnds(p: Key)
    ensures ScenesOf(p)(0) == Initial(1, 1) && ScenesOf(p)(6).line.stopped && ScenesOf(p)(6).reader.Waiting?
  {
  }

  lemma LastMoves(p: Key)
    ensures forall i :: 0 <= i < 6 ==> Leads(ScenesOf(p)(i), TurnsOf(p)(i), ScenesOf(p)(i + 1))
  {
    forall i | 0 <= i < 6 ensures Leads(ScenesOf(p)(i), TurnsOf(p)(i), ScenesOf(p)(i + 1)) {
      if Valid(LastScene(p, i)) { LastMove(p, i); }
    }
  }

  lemma HangsThere(s: State)
    requires Valid(s) && s.line.stopped && s.reader.Waiting?
    ensures Hangs(s)
  {
    forall moves: seq<Move> | Playable(s, moves) && (forall i :: 0 <= i < |moves| ==> !moves[i].Join? && !moves[i].StopBegins?)
      ensures Play(s, moves).reader == s.reader && !Can(Play(s, moves), StopEnds)
    {
      StopHangs(s, moves);
    }
  }
}
