/** What holds over whole runs of a consumption: order, the bound on the buffer, fairness, and where the stop can hang. */
module ConsumingRuns {
  import opened Basics
  import opened Scheduler
  import opened Consuming

  ghost predicate Playable(s: State, moves: seq<Move>)
    requires Valid(s)
    decreases |moves|
  {
    moves == [] || (Can(s, moves[0]) && (NextKeeps(s, moves[0]); Playable(Next(s, moves[0]), moves[1..])))
  }

  ghost function Play(s: State, moves: seq<Move>): (r: State)
    requires Valid(s) && Playable(s, moves)
    ensures Valid(r)
    decreases |moves|
  {
    if moves == [] then s else NextKeeps(s, moves[0]); Play(Next(s, moves[0]), moves[1..])
  }

  /** A consumption as its constructor leaves it, before the first stream is opened. */
  function Initial(concurrency: nat, bufferedMessages: nat): State {
    State(Line(concurrency, map[], [], {}, {}, {}, 0, 0, false), Marks(map[], map[], {}),
          Holding({}, {}, false, 0, map[]), Ended, bufferedMessages, None, map[])
  }

  lemma InitialValid(concurrency: nat, bufferedMessages: nat)
    requires concurrency >= 1 && bufferedMessages >= 1
    ensures Valid(Initial(concurrency, bufferedMessages))
  {
  }

  lemma SettingsStay(s: State, move: Move)
    requires Valid(s) && Can(s, move)
    ensures Next(s, move).line.concurrency == s.line.concurrency && Next(s, move).bufferedMessages == s.bufferedMessages
  {
    match move
    case Resume(keys, _) => ResumedShaped(s.line, keys); var _ := ResumedJoins(s.line, keys);
    case _ =>
  }

  lemma {:induction false} SettingsKept(s: State, moves: seq<Move>)
    requires Valid(s) && Playable(s, moves)
    ensures Play(s, moves).line.concurrency == s.line.concurrency && Play(s, moves).bufferedMessages == s.bufferedMessages
    decreases |moves|
  {
    if moves != [] {
      NextKeeps(s, moves[0]);
      SettingsStay(s, moves[0]);
      SettingsKept(Next(s, moves[0]), moves[1..]);
    }
  }

  // ---------------------------------------------------- order and the bound

  /**
   * However a run goes, the slots take each partition's messages in offset
   * order and none twice, except across a loss, a skip or a replaced stream;
   * the buffer never holds more than it may; and no more slots are busy
   * than there are.
   */
  lemma DeliveredInOrder(concurrency: nat, bufferedMessages: nat, moves: seq<Move>, k: Key)
    requires concurrency >= 1 && bufferedMessages >= 1
    requires Valid(Initial(concurrency, bufferedMessages)) && Playable(Initial(concurrency, bufferedMessages), moves)
    ensures var r := Play(Initial(concurrency, bufferedMessages), moves);
            InOrder(At(r.taken, k)) && Total(r.line.queues) <= bufferedMessages && |r.line.running| <= concurrency
  {
    var s := Initial(concurrency, bufferedMessages);
    var r := Play(s, moves);
    SettingsKept(s, moves);
    assert OrderOk(r.History(k), Tag(r.marks.watermarks, k), k in r.marks.lastQueued, Tag(r.marks.lastQueued, k));
    var t := At(r.taken, k);
    assert forall i :: 0 <= i < |t| ==> t[i] == r.History(k)[i];
  }

  /** Only a join, the stop's end or a message admitted changes what was queued for a partition. */
  lemma Remembered(s: State, move: Move, k: Key)
    requires Valid(s) && Can(s, move) && !move.Join? && !move.StopEnds?
    ensures At(s.taken, k) <= At(Next(s, move).taken, k)
    ensures s.History(k) <= Next(s, move).History(k) && |Next(s, move).History(k)| <= |s.History(k)| + 1
    ensures Next(s, move).History(k) != s.History(k) ==>
              && (move.Read? || move.GoOn?) && s.IsAssigned(k) && s.holding.current
              && Next(s, move).History(k) ==
                 s.History(k) + [Message(if move.Read? then move.offset else s.reader.offset, Tag(s.marks.watermarks, k))]
  {
    match move
    case Read(q, offset, parks) =>
      if s.line.queued < s.bufferedMessages { AcceptRemembers(s, q, offset, parks, k); }
    case GoOn(parks) => AcceptRemembers(s, s.reader.key, s.reader.offset, parks, k);
    case Settle(q, parks) => var _, _ := FinishMoves(s, q, parks);
    case Resume(keys, parks) => ResumeRemembers(s, keys, parks, k);
    case _ =>
  }

  lemma ResumeRemembers(s: State, keys: seq<Key>, parks: Parks, k: Key)
    requires Valid(s)
    ensures var r := Unpaused(s, keys, parks); r.History(k) == s.History(k) && At(s.taken, k) <= At(r.taken, k)
  {
    ResumedShaped(s.line, keys);
    var _ := ResumedJoins(s.line, keys);
    var _, _ := DispatchMoves(s.(line := Resumed(s.line, keys)), parks);
  }

  lemma JoinedThenMoves(s: State, t: State, r: State, back: seq<Key>, popped: seq<Key>, joined: seq<Key>)
    requires t.taken == s.taken && t.line.ready == s.line.ready + back && LineMoves(t, r, popped, joined)
    ensures LineMoves(s, r, popped, back + joined)
  {
    assert s.line.ready + (back + joined) == (s.line.ready + back) + joined;
    forall i | 0 <= i < |popped| ensures Served(s, r, popped[i]) { assert Served(t, r, popped[i]); }
  }

  lemma ResumeMoves(s: State, keys: seq<Key>, parks: Parks) returns (popped: seq<Key>, joined: seq<Key>)
    requires Valid(s)
    ensures LineMoves(s, Unpaused(s, keys, parks), popped, joined)
  {
    ResumedShaped(s.line, keys);
    var b := ResumedJoins(s.line, keys);
    var t := s.(line := Resumed(s.line, keys));
    var p, j := DispatchMoves(t, parks);
    JoinedThenMoves(s, t, Dispatch(t, parks), b, p, j);
    popped, joined := p, b + j;
  }

  predicate Admits(s: State, k: Key, offset: nat) {
    s.holding.current && !s.line.stopped && s.IsAssigned(k) && !Repeats(s.marks, k, offset)
  }

  lemma PushedLines(s: State, k: Key, offset: nat) returns (back: seq<Key>)
    requires Shaped(s.line)
    ensures LineMoves(s, Pushed(s, k, offset), [], back)
  {
    var t := Pushed(s, k, offset);
    back := t.line.ready[|s.line.ready|..];
    assert s.line.ready + back == [] + t.line.ready;
  }

  lemma PushMoves(s: State, k: Key, offset: nat, parks: Parks) returns (popped: seq<Key>, joined: seq<Key>)
    requires Shaped(s.line) && Shaped(Pushed(s, k, offset).line)
    ensures var t, r := Pushed(s, k, offset), Dispatch(Pushed(s, k, offset), parks);
            LineMoves(s, r, popped, joined) && Conserves(t, r)
  {
    var t, r := Pushed(s, k, offset), Dispatch(Pushed(s, k, offset), parks);
    var back := PushedLines(s, k, offset);
    var p, j := DispatchMoves(t, parks);
    JoinedThenMoves(s, t, r, back, p, j);
    popped, joined := p, back + j;
  }

  lemma AcceptMoves(s: State, k: Key, offset: nat, parks: Parks) returns (popped: seq<Key>, joined: seq<Key>)
    requires Valid(s)
    ensures LineMoves(s, Accept(s, k, offset, parks), popped, joined)
  {
    if Admits(s, k, offset) {
      var s1 := s.(reader := Reading);
      PushedShaped(s1, k, offset);
      popped, joined := PushMoves(s1, k, offset, parks);
      var r := Accept(s, k, offset, parks);
      forall i | 0 <= i < |popped| ensures Served(s, r, popped[i]) { assert Served(s1, r, popped[i]); }
    } else {
      popped, joined := [], [];
      assert s.line.ready + [] == [] + s.line.ready;
    }
  }

  lemma AcceptRemembers(s: State, k: Key, offset: nat, parks: Parks, q: Key)
    requires Valid(s)
    ensures At(s.taken, q) <= At(Accept(s, k, offset, parks).taken, q)
    ensures Accept(s, k, offset, parks).History(q) ==
            s.History(q) + (if q == k && Admits(s, k, offset) then [Message(offset, Tag(s.marks.watermarks, k))] else [])
  {
    if Admits(s, k, offset) {
      var s1 := s.(reader := Reading);
      PushedShaped(s1, k, offset);
      PushedHistory(s1, k, offset);
      var _, _ := DispatchMoves(Pushed(s1, k, offset), parks);
    }
  }

  // --------------------------------------------------------------- fairness

  function Place(ready: seq<Key>, k: Key): (i: nat)
    requires k in ready
    ensures i < |ready| && ready[i] == k
  {
    if ready[0] == k then 0 else 1 + Place(ready[1..], k)
  }

  function Settles(moves: seq<Move>): nat {
    if moves == [] then 0 else (if moves[0].Settle? then 1 else 0) + Settles(moves[1..])
  }

  /** A join that finds the partition still held, and nothing come back that was lost: the stream and its queues stay. */
  predicate Stays(s: State, k: Key) {
    s.assignments.Some? && k in s.assignments.value && s.holding.lost * s.assignments.value == {}
  }

  /** Neither paused nor dropped on the way. */
  ghost predicate Undisturbed(s: State, moves: seq<Move>, k: Key)
    requires Valid(s) && Playable(s, moves)
    decreases |moves|
  {
    && k !in s.line.paused && !s.line.stopped
    && (moves == [] || ((moves[0].Join? ==> Stays(s, k)) && (NextKeeps(s, moves[0]); Undisturbed(Next(s, moves[0]), moves[1..], k))))
  }

  lemma MovesUp(s: State, r: State, popped: seq<Key>, joined: seq<Key>, k: Key)
    requires LineOk(s.line) && LineOk(r.line) && LineMoves(s, r, popped, joined)
    requires k in s.line.ready && k !in r.line.paused
    ensures |At(r.taken, k)| > |At(s.taken, k)| || (k in r.line.ready && Place(r.line.ready, k) + |popped| == Place(s.line.ready, k))
  {
    var i := Place(s.line.ready, k);
    assert (s.line.ready + joined)[i] == (popped + r.line.ready)[i];
    if i < |popped| {
      assert Served(s, r, popped[i]);
    } else {
      assert r.line.ready[i - |popped|] == k;
    }
  }

  lemma {:induction false} RemainingPlace(ready: seq<Key>, gone: set<Key>, k: Key)
    requires k in ready && k !in gone
    ensures k in Remaining(ready, gone) && Place(Remaining(ready, gone), k) <= Place(ready, k)
  {
    var rest := Remaining(ready[1..], gone);
    if ready[0] == k {
      assert Remaining(ready, gone) == [k] + rest;
    } else {
      RemainingPlace(ready[1..], gone, k);
      if ready[0] in gone {
        assert Remaining(ready, gone) == rest;
      } else {
        assert Remaining(ready, gone) == [ready[0]] + rest;
        assert ([ready[0]] + rest)[1..] == rest;
      }
    }
  }

  /** A join that leaves the partition alone only takes others out of the line. */
  lemma JoinMovesUp(s: State, k: Key)
    requires Valid(s) && Stays(s, k) && k in s.line.ready
    ensures var r := Joined(s, s.assignments.value);
            r.taken == s.taken && k in r.line.ready && Place(r.line.ready, k) <= Place(s.line.ready, k)
  {
    var now := s.assignments.value;
    JoinLeaves(s, now, k);
    RemainingPlace(s.line.ready, Gone(s, now), k);
    assert Lost(s, Gone(s, now)).holding.lost * now == s.holding.lost * now;
  }

  /** Every step leaves a partition in line where it was or further up, and a finished delivery moves it up. */
  lemma StepMovesUp(s: State, move: Move, k: Key)
    requires Valid(s) && Can(s, move) && (move.Join? ==> Stays(s, k)) && !s.line.stopped && !Next(s, move).line.stopped
    requires k in s.line.ready && k !in Next(s, move).line.paused
    ensures var r := Next(s, move);
            || |At(r.taken, k)| > |At(s.taken, k)|
            || (k in r.line.ready && Place(r.line.ready, k) + (if move.Settle? then 1 else 0) <= Place(s.line.ready, k))
  {
    NextKeeps(s, move);
    var r := Next(s, move);
    match move
    case Read(q, offset, parks) =>
      if s.line.queued < s.bufferedMessages {
        var p, j := AcceptMoves(s, q, offset, parks);
        MovesUp(s, r, p, j, k);
      }
    case GoOn(parks) =>
      var p, j := AcceptMoves(s, s.reader.key, s.reader.offset, parks);
      MovesUp(s, r, p, j, k);
    case Settle(q, parks) =>
      var p, j := FinishMoves(s, q, parks);
      MovesUp(s, r, p, j, k);
    case Resume(keys, parks) =>
      var p, j := ResumeMoves(s, keys, parks);
      MovesUp(s, r, p, j, k);
    case Join => JoinMovesUp(s, k);
    case _ =>
  }

  /**
   * However much the partitions ahead have queued, whoever stands i-th in
   * line has had a message taken by the time i + 1 deliveries have finished,
   * whatever else happens meanwhile.
   */
  lemma {:induction false} Fair(s: State, moves: seq<Move>, k: Key)
    requires Valid(s) && Playable(s, moves) && Undisturbed(s, moves, k)
    requires k in s.line.ready && Settles(moves) > Place(s.line.ready, k)
    ensures |At(Play(s, moves).taken, k)| > |At(s.taken, k)|
    decreases |moves|
  {
    var r := Next(s, moves[0]);
    NextKeeps(s, moves[0]);
    if |At(r.taken, k)| > |At(s.taken, k)| {
      TakenGrows(r, moves[1..], k);
    } else {
      StepMovesUp(s, moves[0], k);
      Fair(r, moves[1..], k);
      TakenStays(s, moves[0], k);
    }
  }

  lemma TakenStays(s: State, move: Move, k: Key)
    requires Valid(s) && Can(s, move) && !Next(s, move).line.stopped
    ensures At(s.taken, k) <= At(Next(s, move).taken, k)
  {
    if !move.Join? && !move.StopEnds? { Remembered(s, move, k); }
  }

  lemma {:induction false} TakenGrows(s: State, moves: seq<Move>, k: Key)
    requires Valid(s) && Playable(s, moves) && Undisturbed(s, moves, k)
    ensures At(s.taken, k) <= At(Play(s, moves).taken, k)
    decreases |moves|
  {
    if moves != [] {
      NextKeeps(s, moves[0]);
      TakenStays(s, moves[0], k);
      TakenGrows(Next(s, moves[0]), moves[1..], k);
    }
  }

  // ---------------------------------------------- waiting for room, stopping

  lemma {:induction false} SomeQueue(q: Queues)
    requires Total(q) > 0
    ensures exists k :: At(q, k) != []
    decreases |q|
  {
    var k :| k in q;
    TotalSplit(q, k);
    if At(q, k) == [] {
      SomeQueue(q - {k});
      var p :| At(q - {k}, p) != [];
      assert At(q, p) != [];
    }
  }

  /** Until the stop, a reader waits for room only behind a delivery in progress, or behind messages that are all paused. */
  lemma WaitsForSomeone(s: State)
    requires Valid(s) && s.reader.Waiting? && !s.line.stopped
    ensures exists k :: At(s.line.queues, k) != []
    ensures s.line.running != {} || (forall k :: At(s.line.queues, k) != [] ==> k in s.line.paused)
  {
    SomeQueue(s.line.queues);
    if s.line.running == {} {
      assert s.line.ready == [];
    }
  }

  /** After the stop began, the message the reader still gets ends it exactly when the buffer is not full. */
  lemma StopEndsTheReader(s: State, k: Key, offset: nat, parks: Parks)
    requires Valid(s) && s.line.stopped && s.reader.Reading?
    ensures Next(s, Read(k, offset, parks)).reader == Ended <==> s.line.queued < s.bufferedMessages
  {
  }

  /** And when it is full, nothing but another join or stop wakes the reader again, so the stop waits for good. */
  lemma {:induction false} StopHangs(s: State, moves: seq<Move>)
    requires Valid(s) && Playable(s, moves) && s.line.stopped && s.reader.Waiting?
    requires forall i :: 0 <= i < |moves| ==> !moves[i].Join? && !moves[i].StopBegins?
    ensures Play(s, moves).reader == s.reader
    decreases |moves|
  {
    if moves != [] {
      var r := Next(s, moves[0]);
      NextKeeps(s, moves[0]);
      if moves[0].Resume? { ResumedShaped(s.line, moves[0].keys); var _ := ResumedJoins(s.line, moves[0].keys); }
      StopHangs(r, moves[1..]);
    }
  }

  // -------------------------------------------------------- replaced streams

  /**
   * Of what the member was last told it holds, a message is admitted only
   * from a stream opened after its partition was last lost.
   */
  lemma FreshStream(s: State, k: Key, offset: nat)
    requires Valid(s) && Admits(s, k, offset) && k in s.holding.holds && k in s.holding.lostUnder
    ensures s.holding.lostUnder[k] < s.holding.streams
  {
    assert k !in s.holding.lost;
  }

  predicate NoTrace(s: State, k: Key) {
    && At(s.line.queues, k) == [] && k !in s.line.ready && k !in s.line.paused
    && k !in s.marks.lastQueued && k !in s.marks.epochs && k !in s.holding.holds
  }

  lemma RotatedNoTrace(s: State, k: Key)
    requires NoTrace(s, k)
    ensures NoTrace(Rotated(s), k)
  {
    RemainingMembers(s.line.ready, s.line.queues.Keys);
  }

  lemma TakenOverNoTrace(s: State, now: set<Key>, k: Key)
    requires LineOk(s.line) && k !in now
    ensures NoTrace(TakenOver(s, now), k)
  {
    RemainingMembers(s.line.ready, Gone(s, now));
    assert k in s.line.ready ==> At(s.line.queues, k) != [];
  }

  /** A join drops every trace of what the member no longer holds. */
  lemma JoinDrops(s: State, now: set<Key>, k: Key)
    requires LineOk(s.line) && k !in now
    ensures NoTrace(Joined(s, now), k)
  {
    TakenOverNoTrace(s, now, k);
    RotatedNoTrace(TakenOver(s, now), k);
  }

  lemma {:induction false} RemainingNone(ready: seq<Key>, keys: set<Key>)
    requires forall k :: k in ready ==> k in keys
    ensures Remaining(ready, keys) == []
  {
    if ready != [] {
      assert ready[0] in ready;
      RemainingNone(ready[1..], keys);
    }
  }

  lemma RotatedEmpties(s: State)
    requires Shaped(s.line) && s.holding.current && !s.line.stopped
    ensures Rotated(s).line.queues == map[] && Rotated(s).line.ready == [] && Rotated(s).line.queued == 0
  {
    forall k | k in s.line.ready ensures k in s.line.queues.Keys { assert At(s.line.queues, k) != []; }
    RemainingNone(s.line.ready, s.line.queues.Keys);
    assert s.line.queues - s.line.queues.Keys == map[];
  }

  /** Something that was lost came back: nothing read from the old stream is left or admitted any more. */
  lemma RegainReplaces(s: State, now: set<Key>)
    requires Valid(s) && s.holding.current && s.holding.lost * now != {}
    ensures var r := Joined(s, now);
            && !r.holding.current && r.line.queues == map[] && r.line.ready == [] && r.line.queued == 0 && r.marks.lastQueued == map[]
            && (forall k, offset :: !Admits(r, k, offset))
  {
    var gone, u := Gone(s, now), TakenOver(s, now);
    TakenOverKeeps(s, now);
    var k :| k in s.holding.lost * now;
    assert k in Lost(s, gone).holding.lost * now;
    RotatedEmpties(u);
  }

  /** Nothing came back: what the member keeps stays as it was, and deliveries in progress go on. */
  lemma JoinLeaves(s: State, now: set<Key>, k: Key)
    requires Valid(s) && s.holding.lost * now == {} && k in now
    ensures var r := Joined(s, now);
            && At(r.line.queues, k) == At(s.line.queues, k) && (k in r.line.ready <==> k in s.line.ready)
            && (k in r.line.paused <==> k in s.line.paused) && (k in r.marks.lastQueued <==> k in s.marks.lastQueued)
            && r.holding.current == s.holding.current && r.line.running == s.line.running && r.taken == s.taken
  {
    var gone := Gone(s, now);
    RemainingMembers(s.line.ready, gone);
    assert Lost(s, gone).holding.lost * now == s.holding.lost * now;
  }
}
