/** What a consumption takes in from its stream, and what its slots leave alone. */
module Intake {
  import opened Basics
  import opened Scheduler
  import opened Consuming
  import opened ConsumingRuns

  // --------------------------------------------------------------- one read

  /** The stream is in use and there is room. */
  predicate TakesIn(s: State) { s.holding.current && !s.line.stopped && s.line.queued < s.bufferedMessages }

  /** The member holds the partition, and the offset is beyond whatever is remembered of it. */
  predicate Fresh(s: State, k: Key, offset: nat) {
    && (s.assignments.None? || k in s.assignments.value)
    && (k !in s.marks.lastQueued || offset > s.marks.lastQueued[k])
  }

  /**
   * A message read is queued, behind what there is of its partition, if and
   * only if the partition is held and the offset is beyond the last one
   * queued; whatever lies between the two. Other partitions keep what they
   * have.
   */
  lemma ReadExactly(s: State, k: Key, offset: nat, parks: Parks, q: Key)
    requires Valid(s) && s.reader.Reading? && TakesIn(s)
    ensures Next(s, Read(k, offset, parks)).History(q) ==
            s.History(q) + (if q == k && Fresh(s, k, offset) then [Message(offset, Tag(s.marks.watermarks, k))] else [])
  {
    AcceptRemembers(s, k, offset, parks, q);
  }

  /** So is a message the reader waited with, once it goes on. */
  lemma GoOnExactly(s: State, parks: Parks, q: Key)
    requires Valid(s) && s.reader.Woken? && s.holding.current
    ensures var k, offset := s.reader.key, s.reader.offset;
            Next(s, GoOn(parks)).History(q) ==
            s.History(q) + (if q == k && Fresh(s, k, offset) then [Message(offset, Tag(s.marks.watermarks, k))] else [])
  {
    AcceptRemembers(s, s.reader.key, s.reader.offset, parks, q);
  }

  /** A stream just opened is in use: what it hands over first is queued, if it is new and there is room. */
  lemma OpenTakesIn(s: State, k: Key, offset: nat, parks: Parks)
    requires Valid(s) && Can(s, Open) && s.line.queued < s.bufferedMessages && Fresh(s, k, offset)
    ensures Can(Next(s, Open), Read(k, offset, parks)) && Valid(Next(s, Open))
    ensures Next(Next(s, Open), Read(k, offset, parks)).History(k) == s.History(k) + [Message(offset, Tag(s.marks.watermarks, k))]
  {
    NextKeeps(s, Open);
    ReadExactly(Next(s, Open), k, offset, parks, k);
  }

  // --------------------------------------------- what is remembered is true

  /** What is remembered of a partition is the last message queued for it, under the watermark in force. */
  ghost predicate RemembersLast(s: State, k: Key) {
    k in s.marks.lastQueued ==>
      s.History(k) != [] && s.History(k)[|s.History(k)| - 1] == Message(s.marks.lastQueued[k], Tag(s.marks.watermarks, k))
  }

  ghost predicate Remembering(s: State) { !s.line.stopped ==> forall k :: RemembersLast(s, k) }

  /** Marks may be forgotten, and are not changed otherwise. */
  ghost predicate MarksShrink(s: State, r: State) {
    forall k :: k in r.marks.lastQueued ==>
      k in s.marks.lastQueued && r.marks.lastQueued[k] == s.marks.lastQueued[k] && Tag(r.marks.watermarks, k) == Tag(s.marks.watermarks, k)
  }

  lemma {:induction false} DispatchMarks(s: State, parks: Parks)
    requires Shaped(s.line)
    ensures MarksShrink(s, Dispatch(s, parks))
    decreases s.line.queued, 0, |s.line.ready|
  {
    if s.line.stopped || s.line.active >= s.line.concurrency || s.line.ready == [] { return; }
    if s.line.ready[0] in s.line.paused {
      LeaveKeeps(s.line);
      DispatchMarks(s.(line := Leave(s.line)), parks);
    } else {
      TakeKeeps(s.line);
      var k := s.line.ready[0];
      DeliverMarks(Taken(s), k, s.line.queues[k][0], parks);
      DispatchMarks(Deliver(Taken(s), k, s.line.queues[k][0], parks), parks);
    }
  }

  lemma {:induction false} DeliverMarks(s: State, k: Key, m: Message, parks: Parks)
    requires Shaped(s.line) && k in s.line.running
    ensures MarksShrink(s, Deliver(s, k, m, parks))
    decreases s.line.queued, 2, 0
  {
    BegunKeeps(s, k, m, parks);
    if !s.IsAssigned(k) { FinishMarks(Begun(s, k, m, parks), k, parks); }
  }

  lemma {:induction false} FinishMarks(s: State, k: Key, parks: Parks)
    requires Shaped(s.line) && k in s.line.running
    ensures MarksShrink(s, Finish(s, k, parks))
    decreases s.line.queued, 1, 0
  {
    FreeKeeps(s.line, k);
    if !s.line.stopped { DispatchMarks(s.(line := Freed(s.line, k)), parks); }
  }

  lemma SameHistories(s: State, r: State)
    requires Remembering(s) && MarksShrink(s, r) && (!r.line.stopped ==> !s.line.stopped) && forall k :: r.History(k) == s.History(k)
    ensures Remembering(r)
  {
    if !r.line.stopped {
      forall k ensures RemembersLast(r, k) { assert RemembersLast(s, k); }
    }
  }

  lemma PushedRemembers(s: State, k: Key, offset: nat)
    requires Remembering(s)
    ensures Remembering(Pushed(s, k, offset))
  {
    var r := Pushed(s, k, offset);
    PushedHistory(s, k, offset);
    if !r.line.stopped {
      forall q ensures RemembersLast(r, q) { assert RemembersLast(s, q); }
    }
  }

  lemma AcceptRemembering(s: State, k: Key, offset: nat, parks: Parks)
    requires Valid(s) && Remembering(s)
    ensures Remembering(Accept(s, k, offset, parks))
  {
    if Admits(s, k, offset) {
      var s1 := s.(reader := Reading);
      SameHistories(s, s1);
      PushedShaped(s1, k, offset);
      PushedRemembers(s1, k, offset);
      var t := Pushed(s1, k, offset);
      DispatchMarks(t, parks);
      var _, _ := DispatchMoves(t, parks);
      SameHistories(t, Dispatch(t, parks));
    } else {
      SameHistories(s, Accept(s, k, offset, parks));
    }
  }

  lemma ResumeRemembering(s: State, keys: seq<Key>, parks: Parks)
    requires Valid(s) && Remembering(s)
    ensures Remembering(Unpaused(s, keys, parks))
  {
    ResumedShaped(s.line, keys);
    var _ := ResumedJoins(s.line, keys);
    var t := s.(line := Resumed(s.line, keys));
    SameHistories(s, t);
    DispatchMarks(t, parks);
    var _, _ := DispatchMoves(t, parks);
    SameHistories(t, Dispatch(t, parks));
  }

  lemma SettleRemembering(s: State, k: Key, parks: Parks)
    requires Valid(s) && k in s.line.running && Remembering(s)
    ensures Remembering(Finish(s, k, parks))
  {
    FinishMarks(s, k, parks);
    var _, _ := FinishMoves(s, k, parks);
    SameHistories(s, Finish(s, k, parks));
  }

  lemma JoinRemembering(s: State, now: set<Key>)
    requires Remembering(s)
    ensures Remembering(Joined(s, now))
  {
    var r := Joined(s, now);
    if !r.line.stopped {
      forall k ensures RemembersLast(r, k) {
        assert RemembersLast(s, k);
        if k in r.marks.lastQueued { assert k !in Gone(s, now); }
      }
    }
  }

  lemma MoveRemembering(s: State, move: Move)
    requires Valid(s) && Can(s, move) && Remembering(s)
    ensures Remembering(Next(s, move))
  {
    match move
    case Read(k, offset, parks) =>
      if s.line.queued < s.bufferedMessages { AcceptRemembering(s, k, offset, parks); } else { SameHistories(s, Next(s, move)); }
    case GoOn(parks) => AcceptRemembering(s, s.reader.key, s.reader.offset, parks);
    case Settle(k, parks) => SettleRemembering(s, k, parks);
    case Resume(keys, parks) => ResumeRemembering(s, keys, parks);
    case Join => JoinRemembering(s, s.assignments.value);
    case StopEnds =>
    case _ => SameHistories(s, Next(s, move));
  }

  lemma {:induction false} AlwaysRemembering(s: State, moves: seq<Move>)
    requires Valid(s) && Playable(s, moves) && Remembering(s)
    ensures Remembering(Play(s, moves))
    decreases |moves|
  {
    if moves != [] {
      NextKeeps(s, moves[0]);
      MoveRemembering(s, moves[0]);
      AlwaysRemembering(Next(s, moves[0]), moves[1..]);
    }
  }

  /** Beyond every offset queued for the partition since its watermark was last forgotten. */
  ghost predicate Beyond(s: State, k: Key, offset: nat) {
    forall i :: 0 <= i < |s.History(k)| && s.History(k)[i].watermark == Tag(s.marks.watermarks, k) ==> offset > s.History(k)[i].offset
  }

  /**
   * In any run: while the stream is in use and there is room, a message of a
   * partition that is held, beyond every offset queued for it since it was
   * last forgotten, is queued behind the others. Nothing new is dropped.
   */
  lemma NothingNewDropped(concurrency: nat, bufferedMessages: nat, moves: seq<Move>, k: Key, offset: nat, parks: Parks)
    requires concurrency >= 1 && bufferedMessages >= 1
    requires Valid(Initial(concurrency, bufferedMessages)) && Playable(Initial(concurrency, bufferedMessages), moves)
    requires var r := Play(Initial(concurrency, bufferedMessages), moves);
             r.reader.Reading? && TakesIn(r) && (r.assignments.None? || k in r.assignments.value) && Beyond(r, k, offset)
    ensures var r := Play(Initial(concurrency, bufferedMessages), moves);
            Next(r, Read(k, offset, parks)).History(k) == r.History(k) + [Message(offset, Tag(r.marks.watermarks, k))]
  {
    var r := Play(Initial(concurrency, bufferedMessages), moves);
    AlwaysRemembering(Initial(concurrency, bufferedMessages), moves);
    assert RemembersLast(r, k);
    ReadExactly(r, k, offset, parks, k);
  }

  // ------------------------------------------------- what the slots leave alone

  /** Paused, or with a delivery in progress, or past the stop: nothing of the partition may be taken. */
  predicate LeftAlone(s: State, k: Key) { k in s.line.paused || k in s.line.running || s.line.stopped }

  lemma {:induction false} DispatchLeaves(s: State, parks: Parks, k: Key)
    requires Shaped(s.line) && LeftAlone(s, k)
    ensures At(Dispatch(s, parks).taken, k) == At(s.taken, k) && LeftAlone(Dispatch(s, parks), k)
    decreases s.line.queued, 0, |s.line.ready|
  {
    if s.line.stopped || s.line.active >= s.line.concurrency || s.line.ready == [] { return; }
    if s.line.ready[0] in s.line.paused {
      LeaveKeeps(s.line);
      DispatchLeaves(s.(line := Leave(s.line)), parks, k);
    } else {
      TakeKeeps(s.line);
      var q := s.line.ready[0];
      assert q in s.line.waiting && q != k;
      DeliverLeaves(Taken(s), q, s.line.queues[q][0], parks, k);
      DispatchLeaves(Deliver(Taken(s), q, s.line.queues[q][0], parks), parks, k);
    }
  }

  lemma {:induction false} DeliverLeaves(s: State, q: Key, m: Message, parks: Parks, k: Key)
    requires Shaped(s.line) && q in s.line.running && LeftAlone(s, k) && q != k
    ensures At(Deliver(s, q, m, parks).taken, k) == At(s.taken, k) && LeftAlone(Deliver(s, q, m, parks), k)
    decreases s.line.queued, 2, 0
  {
    BegunKeeps(s, q, m, parks);
    if !s.IsAssigned(q) { FinishLeaves(Begun(s, q, m, parks), q, parks, k); }
  }

  lemma {:induction false} FinishLeaves(s: State, q: Key, parks: Parks, k: Key)
    requires Shaped(s.line) && q in s.line.running && LeftAlone(s, k) && (q != k || k in s.line.paused || s.line.stopped)
    ensures At(Finish(s, q, parks).taken, k) == At(s.taken, k) && LeftAlone(Finish(s, q, parks), k)
    decreases s.line.queued, 1, 0
  {
    FreeKeeps(s.line, q);
    if !s.line.stopped { DispatchLeaves(s.(line := Freed(s.line, q)), parks, k); }
  }

  /** What would let a partition's next message be taken: its resume, while it is paused, or the end of its own delivery. */
  predicate LetsGo(s: State, move: Move, k: Key) {
    && !s.line.stopped
    && (k in s.line.paused ==> move.Resume? && k in move.keys)
    && (k in s.line.running ==> move.Settle? && move.key == k)
  }

  lemma ResumedStill(l: Line, keys: seq<Key>, k: Key)
    ensures Resumed(l, keys).running == l.running && Resumed(l, keys).stopped == l.stopped
    ensures k in Resumed(l, keys).paused <==> k in l.paused && k !in keys
  {
    var _ := ResumedJoins(l, keys);
  }

  /** No move takes a message of a partition that is paused, of one whose delivery is in progress, or after the stop began. */
  lemma MoveLeaves(s: State, move: Move, k: Key)
    requires Valid(s) && Can(s, move) && !LetsGo(s, move, k) && LeftAlone(s, k)
    ensures At(Next(s, move).taken, k) == At(s.taken, k)
  {
    match move
    case Read(q, offset, parks) => if s.line.queued < s.bufferedMessages { AcceptLeaves(s, q, offset, parks, k); }
    case GoOn(parks) => AcceptLeaves(s, s.reader.key, s.reader.offset, parks, k);
    case Settle(q, parks) => SettleLeaves(s, q, parks, k);
    case Resume(keys, parks) =>
      ResumedShaped(s.line, keys);
      ResumedStill(s.line, keys, k);
      if LeftAlone(s.(line := Resumed(s.line, keys)), k) { DispatchLeaves(s.(line := Resumed(s.line, keys)), parks, k); }
    case _ =>
  }

  lemma AcceptLeaves(s: State, q: Key, offset: nat, parks: Parks, k: Key)
    requires Valid(s) && LeftAlone(s, k)
    ensures At(Accept(s, q, offset, parks).taken, k) == At(s.taken, k)
    ensures k in s.line.paused ==> k in Accept(s, q, offset, parks).line.paused
  {
    if Admits(s, q, offset) {
      var s1 := s.(reader := Reading);
      PushedShaped(s1, q, offset);
      DispatchLeaves(Pushed(s1, q, offset), parks, k);
      var _, _ := DispatchMoves(Pushed(s1, q, offset), parks);
    }
  }

  lemma SettleLeaves(s: State, q: Key, parks: Parks, k: Key)
    requires Valid(s) && q in s.line.running && LeftAlone(s, k) && (q != k || k in s.line.paused || s.line.stopped)
    ensures At(Finish(s, q, parks).taken, k) == At(s.taken, k)
  {
    FinishLeaves(s, q, parks, k);
  }

  /** A partition stays paused through everything but its own resume and a join. */
  lemma StaysPaused(s: State, move: Move, k: Key)
    requires Valid(s) && Can(s, move) && k in s.line.paused && !move.Join? && !(move.Resume? && k in move.keys)
    ensures k in Next(s, move).line.paused
  {
    match move
    case Read(q, offset, parks) => if s.line.queued < s.bufferedMessages { AcceptLeaves(s, q, offset, parks, k); }
    case GoOn(parks) => AcceptLeaves(s, s.reader.key, s.reader.offset, parks, k);
    case Settle(q, parks) => var _, _ := FinishMoves(s, q, parks);
    case Resume(keys, parks) =>
      ResumedShaped(s.line, keys);
      ResumedStill(s.line, keys, k);
      var _, _ := DispatchMoves(s.(line := Resumed(s.line, keys)), parks);
    case _ =>
  }

  /** Over any run: from its pause to its resume or a join, nothing of a partition is taken. */
  lemma {:induction false} PausedIsLeftAlone(s: State, moves: seq<Move>, k: Key)
    requires Valid(s) && Playable(s, moves) && k in s.line.paused
    requires forall i :: 0 <= i < |moves| ==> !moves[i].Join? && !(moves[i].Resume? && k in moves[i].keys)
    ensures At(Play(s, moves).taken, k) == At(s.taken, k) && k in Play(s, moves).line.paused
    decreases |moves|
  {
    if moves != [] {
      NextKeeps(s, moves[0]);
      MoveLeaves(s, moves[0], k);
      StaysPaused(s, moves[0], k);
      PausedIsLeftAlone(Next(s, moves[0]), moves[1..], k);
    }
  }

  /** And a pause begins with the move that asks for it. */
  lemma PauseBegins(s: State, keys: seq<Key>, moves: seq<Move>, k: Key)
    requires Valid(s) && k in keys && Valid(Next(s, Pause(keys))) && Playable(Next(s, Pause(keys)), moves)
    requires forall i :: 0 <= i < |moves| ==> !moves[i].Join? && !(moves[i].Resume? && k in moves[i].keys)
    ensures At(Play(Next(s, Pause(keys)), moves).taken, k) == At(s.taken, k)
  {
    PausedIsLeftAlone(Next(s, Pause(keys)), moves, k);
  }
}
