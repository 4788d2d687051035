/**
 * When a partition's queue keeps its order. A message is taken for a repeat
 * by the last offset queued; a delivery skipped because the partition is not
 * held any more forgets it, with what is queued behind the skipped message
 * still there.
 */
module Watermarks {
  import opened Basics
  import opened Scheduler
  import opened Consuming
  import opened ConsumingRuns

  ghost predicate Rising(q: seq<Message>) { forall i, j :: 0 <= i < j < |q| ==> q[i].offset < q[j].offset }

  /** The queue is in offset order, and the watermark, if it is known, is its last offset. */
  ghost predicate QueueOk(s: State, k: Key) {
    var q := At(s.line.queues, k);
    Rising(q) && (q != [] && k in s.marks.lastQueued ==> q[|q| - 1].offset == s.marks.lastQueued[k])
  }

  /** What the member holds and has queued has its watermark. */
  predicate Marked(s: State, k: Key) { At(s.line.queues, k) != [] && s.IsAssigned(k) ==> k in s.marks.lastQueued }

  ghost predicate Tidy(s: State) { forall k :: QueueOk(s, k) && Marked(s, k) }

  /** Only what the member holds is queued. */
  ghost predicate Owned(s: State) { forall k :: At(s.line.queues, k) != [] ==> s.IsAssigned(k) }

  // ------------------------------------------------------------- one read

  /** The message a read queues comes behind one that is not before it. */
  ghost predicate GoesDown(s: State, k: Key, offset: nat) { Admits(s, k, offset) && !Rising(At(Pushed(s, k, offset).line.queues, k)) }

  lemma RisingOn(q: seq<Message>, m: Message)
    requires Rising(q) && (q != [] ==> q[|q| - 1].offset < m.offset)
    ensures Rising(q + [m])
  {
  }

  /**
   * The order of a queue that is in order can be lost by the next read if
   * and only if the partition is held, something of it is queued, and its
   * watermark was forgotten.
   */
  lemma OrderLostExactly(s: State, k: Key)
    requires QueueOk(s, k) && s.holding.current && !s.line.stopped
    ensures (exists offset :: GoesDown(s, k, offset)) <==> s.IsAssigned(k) && k !in s.marks.lastQueued && At(s.line.queues, k) != []
  {
    var q := At(s.line.queues, k);
    if s.IsAssigned(k) && k !in s.marks.lastQueued && q != [] {
      var r := At(Pushed(s, k, 0).line.queues, k);
      assert r[0] == q[0] && r[|q|].offset == 0;
      assert GoesDown(s, k, 0);
    }
    forall offset | Admits(s, k, offset) && (k in s.marks.lastQueued || q == []) ensures !GoesDown(s, k, offset) {
      RisingOn(q, Message(offset, Tag(s.marks.watermarks, k)));
    }
  }

  // ------------------------------------------------- what a dispatch keeps

  lemma TakenTidy(s: State)
    requires Tidy(s) && s.line.ready != [] && At(s.line.queues, s.line.ready[0]) != []
    ensures Tidy(Taken(s)) && (Owned(s) ==> Owned(Taken(s)))
  {
    var r := Taken(s);
    forall k ensures QueueOk(r, k) && Marked(r, k) && (Owned(s) && At(r.line.queues, k) != [] ==> r.IsAssigned(k)) {
      assert QueueOk(s, k) && Marked(s, k);
    }
  }

  lemma SameQueuesTidy(s: State, r: State)
    requires Tidy(s) && r.line.queues == s.line.queues && r.assignments == s.assignments
    requires forall k :: s.IsAssigned(k) ==> (k in r.marks.lastQueued <==> k in s.marks.lastQueued)
    requires forall k :: k in r.marks.lastQueued ==> k in s.marks.lastQueued && r.marks.lastQueued[k] == s.marks.lastQueued[k]
    ensures Tidy(r) && (Owned(s) ==> Owned(r))
  {
    forall k ensures QueueOk(r, k) && Marked(r, k) { assert QueueOk(s, k) && Marked(s, k); }
  }

  lemma {:induction false} DispatchTidy(s: State, parks: Parks)
    requires Shaped(s.line) && Tidy(s)
    ensures Tidy(Dispatch(s, parks)) && (Owned(s) ==> Owned(Dispatch(s, parks))) && Dispatch(s, parks).assignments == s.assignments
    decreases s.line.queued, 0, |s.line.ready|
  {
    if s.line.stopped || s.line.active >= s.line.concurrency || s.line.ready == [] { return; }
    if s.line.ready[0] in s.line.paused {
      LeaveKeeps(s.line);
      SameQueuesTidy(s, s.(line := Leave(s.line)));
      DispatchTidy(s.(line := Leave(s.line)), parks);
    } else {
      TakeKeeps(s.line);
      TakenTidy(s);
      var k := s.line.ready[0];
      DeliverTidy(Taken(s), k, s.line.queues[k][0], parks);
      DispatchTidy(Deliver(Taken(s), k, s.line.queues[k][0], parks), parks);
    }
  }

  lemma {:induction false} DeliverTidy(s: State, k: Key, m: Message, parks: Parks)
    requires Shaped(s.line) && k in s.line.running && Tidy(s)
    ensures var r := Deliver(s, k, m, parks); Tidy(r) && (Owned(s) ==> Owned(r)) && r.assignments == s.assignments
    decreases s.line.queued, 2, 0
  {
    var s1 := Begun(s, k, m, parks);
    BegunKeeps(s, k, m, parks);
    SameQueuesTidy(s, s1);
    if !s.IsAssigned(k) { FinishTidy(s1, k, parks); }
  }

  lemma {:induction false} FinishTidy(s: State, k: Key, parks: Parks)
    requires Shaped(s.line) && k in s.line.running && Tidy(s)
    ensures var r := Finish(s, k, parks); Tidy(r) && (Owned(s) ==> Owned(r)) && r.assignments == s.assignments
    decreases s.line.queued, 1, 0
  {
    FreeKeeps(s.line, k);
    var s1 := s.(line := Freed(s.line, k));
    SameQueuesTidy(s, s1);
    if !s.line.stopped { DispatchTidy(s1, parks); }
  }

  // ------------------------------------------------------ what a move keeps

  lemma PushedTidy(s: State, k: Key, offset: nat)
    requires Tidy(s) && s.IsAssigned(k) && !Repeats(s.marks, k, offset)
    ensures Tidy(Pushed(s, k, offset)) && (Owned(s) ==> Owned(Pushed(s, k, offset)))
  {
    var r := Pushed(s, k, offset);
    assert QueueOk(s, k) && Marked(s, k);
    RisingOn(At(s.line.queues, k), Message(offset, Tag(s.marks.watermarks, k)));
    forall q ensures QueueOk(r, q) && Marked(r, q) && (Owned(s) && At(r.line.queues, q) != [] ==> r.IsAssigned(q)) {
      assert QueueOk(s, q) && Marked(s, q);
    }
  }

  lemma AcceptTidy(s: State, k: Key, offset: nat, parks: Parks)
    requires Shaped(s.line) && Tidy(s)
    ensures var r := Accept(s, k, offset, parks); Tidy(r) && (Owned(s) ==> Owned(r)) && r.assignments == s.assignments
  {
    if Admits(s, k, offset) {
      var s1 := s.(reader := Reading);
      SameQueuesTidy(s, s1);
      PushedShaped(s1, k, offset);
      PushedTidy(s1, k, offset);
      DispatchTidy(Pushed(s1, k, offset), parks);
    } else {
      SameQueuesTidy(s, Accept(s, k, offset, parks));
    }
  }

  lemma ResumeTidy(s: State, keys: seq<Key>, parks: Parks)
    requires Shaped(s.line) && Tidy(s)
    ensures var r := Unpaused(s, keys, parks); Tidy(r) && (Owned(s) ==> Owned(r)) && r.assignments == s.assignments
  {
    ResumedShaped(s.line, keys);
    var _ := ResumedJoins(s.line, keys);
    var t := s.(line := Resumed(s.line, keys));
    SameQueuesTidy(s, t);
    DispatchTidy(t, parks);
  }

  lemma JoinTidy(s: State)
    requires Tidy(s) && s.assignments.Some?
    ensures var r := Joined(s, s.assignments.value); Tidy(r) && Owned(r) && r.assignments == s.assignments
  {
    var now := s.assignments.value;
    var t, r := TakenOver(s, now), Joined(s, now);
    forall k ensures QueueOk(t, k) && Marked(t, k) && (At(t.line.queues, k) != [] ==> k in now) { assert QueueOk(s, k) && Marked(s, k); }
    forall k ensures QueueOk(r, k) && Marked(r, k) && (At(r.line.queues, k) != [] ==> k in now) { assert QueueOk(t, k) && Marked(t, k); }
  }

  // ---------------------------------------------------------------- the runs

  /** The client says so between any two changes of its assignment. */
  predicate Announced(moves: seq<Move>, pending: bool) {
    moves == [] ||
    match moves[0]
    case Rebalance(_) => !pending && Announced(moves[1..], true)
    case Join => Announced(moves[1..], false)
    case _ => Announced(moves[1..], pending)
  }

  lemma MoveTidy(s: State, move: Move)
    requires Valid(s) && Can(s, move) && Tidy(s) && !move.Rebalance? && !move.Join?
    ensures var r := Next(s, move); Tidy(r) && (Owned(s) ==> Owned(r))
  {
    match move
    case Read(k, offset, parks) =>
      if s.line.queued < s.bufferedMessages { AcceptTidy(s, k, offset, parks); } else { SameQueuesTidy(s, Next(s, move)); }
    case GoOn(parks) => AcceptTidy(s, s.reader.key, s.reader.offset, parks);
    case Settle(k, parks) => FinishTidy(s, k, parks);
    case Resume(keys, parks) => ResumeTidy(s, keys, parks);
    case Rebalance(_) =>
    case Join =>
    case StopEnds => assert forall k :: At(Next(s, move).line.queues, k) == [];
    case _ => SameQueuesTidy(s, Next(s, move));
  }

  lemma {:induction false} AnnouncedTidy(s: State, moves: seq<Move>, pending: bool)
    requires Valid(s) && Playable(s, moves) && Announced(moves, pending) && Tidy(s) && (!pending ==> Owned(s))
    ensures Tidy(Play(s, moves))
    decreases |moves|
  {
    if moves != [] {
      var r := Next(s, moves[0]);
      NextKeeps(s, moves[0]);
      match moves[0] {
        case Rebalance(now) =>
          forall k ensures QueueOk(r, k) && Marked(r, k) { assert QueueOk(s, k) && Marked(s, k); }
          AnnouncedTidy(r, moves[1..], true);
        case Join =>
          JoinTidy(s);
          AnnouncedTidy(r, moves[1..], false);
        case _ =>
          MoveTidy(s, moves[0]);
          AnnouncedTidy(r, moves[1..], pending);
      }
    }
  }

  /**
   * So long as the client announces every change of its assignment before
   * the next one, every queue is in offset order and without repeats, and no
   * read can change that.
   */
  lemma AnnouncedInOrder(concurrency: nat, bufferedMessages: nat, moves: seq<Move>, k: Key)
    requires concurrency >= 1 && bufferedMessages >= 1
    requires Valid(Initial(concurrency, bufferedMessages)) && Playable(Initial(concurrency, bufferedMessages), moves) && Announced(moves, false)
    ensures var r := Play(Initial(concurrency, bufferedMessages), moves);
            Rising(At(r.line.queues, k)) && (r.holding.current && !r.line.stopped ==> forall offset :: !GoesDown(r, k, offset))
  {
    var s := Initial(concurrency, bufferedMessages);
    AnnouncedTidy(s, moves, false);
    var r := Play(s, moves);
    assert QueueOk(r, k) && Marked(r, k);
    if r.holding.current && !r.line.stopped { OrderLostExactly(r, k); }
  }
}
