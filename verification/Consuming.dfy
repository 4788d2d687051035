/**
 * Everything that may happen to a consumption, one step at a time: the
 * stream's reader, the handlers finishing, the core pausing and resuming,
 * rebalances, lost streams and the stop. What holds after any run of it.
 */
module Consuming {
  import opened Basics
  import opened Scheduler

  datatype Move =
    | Read(key: Key, offset: nat, parks: Parks)   // the stream hands the reader a message
    | GoOn(parks: Parks)                          // the reader, woken, goes on with the message it holds
    | StreamEnds
    | Open
    | Settle(key: Key, parks: Parks)              // a delivery's handler is done
    | Pause(keys: seq<Key>)
    | Resume(keys: seq<Key>, parks: Parks)
    | Rebalance(now: set<Key>)                    // the client replaced its assignments
    | Join                                        // the client said so
    | DropStream
    | StopBegins
    | StopEnds

  // ------------------------------------------------------------- enqueueing

  predicate Repeats(m: Marks, k: Key, offset: nat) { k in m.lastQueued && offset <= m.lastQueued[k] }

  function Appended(s: State, k: Key, offset: nat): Queues {
    s.line.queues[k := At(s.line.queues, k) + [Message(offset, Tag(s.marks.watermarks, k))]]
  }

  function Pushed(s: State, k: Key, offset: nat): State {
    var l := s.line.(queues := Appended(s, k, offset), queued := s.line.queued + 1);
    s.(marks := s.marks.(lastQueued := s.marks.lastQueued[k := offset]), line := MarkReady(l, k))
  }

  lemma PushedShaped(s: State, k: Key, offset: nat)
    requires Shaped(s.line)
    ensures Shaped(Pushed(s, k, offset).line)
  {
    TotalUpdate(s.line.queues, k, At(s.line.queues, k) + [Message(offset, Tag(s.marks.watermarks, k))]);
  }

  /** `enqueue`: a message of a partition not held, or seen already, is dropped. */
  ghost function Enqueue(s: State, k: Key, offset: nat, parks: Parks): (r: State)
    requires Shaped(s.line)
    ensures Shaped(r.line)
  {
    if !s.IsAssigned(k) || Repeats(s.marks, k, offset) then s
    else
      PushedShaped(s, k, offset);
      Dispatch(Pushed(s, k, offset), parks)
  }

  /** What the reader does with a message once there is room. */
  ghost function Accept(s: State, k: Key, offset: nat, parks: Parks): (r: State)
    requires Shaped(s.line)
    ensures Shaped(r.line)
  {
    if s.line.stopped || !s.holding.current then s.(reader := Ended)
    else Enqueue(s.(reader := Reading), k, offset, parks)
  }

  // --------------------------------------------------------------- resuming

  /** Partition by partition: no longer paused, and back in line. */
  function Resumed(l: Line, keys: seq<Key>): Line
    decreases |keys|
  {
    if keys == [] then l else Resumed(MarkReady(l.(paused := l.paused - {keys[0]}), keys[0]), keys[1..])
  }

  lemma {:induction false} ResumedShaped(l: Line, keys: seq<Key>)
    requires Shaped(l)
    ensures Shaped(Resumed(l, keys))
    decreases |keys|
  {
    if keys != [] {
      ResumedShaped(MarkReady(l.(paused := l.paused - {keys[0]}), keys[0]), keys[1..]);
    }
  }

  /** `resume`. */
  ghost function Unpaused(s: State, keys: seq<Key>, parks: Parks): (r: State)
    requires Shaped(s.line)
    ensures Shaped(r.line)
  {
    ResumedShaped(s.line, keys);
    Dispatch(s.(line := Resumed(s.line, keys)), parks)
  }

  /** Resuming lets partitions line up behind whoever stands there, and changes nothing else. */
  lemma {:induction false} ResumedJoins(l: Line, keys: seq<Key>) returns (back: seq<Key>)
    ensures Resumed(l, keys) == l.(paused := l.paused - Members(keys), ready := l.ready + back, waiting := l.waiting + Members(back))
    decreases |keys|
  {
    back := [];
    if keys != [] {
      var t := l.(paused := l.paused - {keys[0]});
      var b := ResumedJoins(MarkReady(t, keys[0]), keys[1..]);
      back := if CanLineUp(t, keys[0]) then [keys[0]] + b else b;
    }
  }

  function Members(keys: seq<Key>): set<Key> { set k | k in keys }

  // --------------------------------------------------------------- dropping

  function Remaining(ready: seq<Key>, keys: set<Key>): seq<Key> {
    if ready == [] then []
    else (if ready[0] in keys then [] else [ready[0]]) + Remaining(ready[1..], keys)
  }

  lemma {:induction false} RemainingMembers(ready: seq<Key>, keys: set<Key>)
    ensures forall k :: k in Remaining(ready, keys) <==> k in ready && k !in keys
    ensures NoRepeats(ready) ==> NoRepeats(Remaining(ready, keys))
    ensures |Remaining(ready, keys)| <= |ready|
  {
    if ready != [] {
      RemainingMembers(ready[1..], keys);
      assert ready == [ready[0]] + ready[1..];
    }
  }

  lemma {:induction false} RemainingAll(ready: seq<Key>, k: Key)
    requires k !in ready
    ensures Remaining(ready, {k}) == ready
  {
    if ready != [] {
      assert ready[0] in ready && ready == [ready[0]] + ready[1..];
      RemainingAll(ready[1..], k);
    }
  }

  /** Cutting the one place a partition has out of the line. */
  lemma {:induction false} RemainingCut(ready: seq<Key>, i: nat)
    requires NoRepeats(ready) && i < |ready|
    ensures Remaining(ready, {ready[i]}) == ready[..i] + ready[i + 1..]
  {
    if i == 0 {
      RemainingAll(ready[1..], ready[0]);
    } else {
      RemainingCut(ready[1..], i - 1);
      assert ready[..i] + ready[i + 1..] == [ready[0]] + (ready[1..][..i - 1] + ready[1..][i..]);
    }
  }

  lemma {:induction false} RemainingTwice(ready: seq<Key>, keys: set<Key>, k: Key)
    ensures Remaining(Remaining(ready, keys), {k}) == Remaining(ready, keys + {k})
  {
    if ready != [] {
      RemainingTwice(ready[1..], keys, k);
      if ready[0] in keys { assert Remaining(ready, keys) == Remaining(ready[1..], keys); }
      else { assert ([ready[0]] + Remaining(ready[1..], keys))[1..] == Remaining(ready[1..], keys); }
    }
  }

  lemma EmptiedTwice(l: Line, keys: set<Key>, k: Key)
    ensures Emptied(Emptied(l, keys), {k}) == Emptied(l, keys + {k})
  {
    assert l.queues - keys - {k} == l.queues - (keys + {k});
    assert l.waiting - keys - {k} == l.waiting - (keys + {k});
    RemainingTwice(l.ready, keys, k);
  }

  lemma EmptiedNone(l: Line)
    ensures Emptied(l, {}) == l
  {
    assert l.queues - {} == l.queues;
    RemainingNobody(l.ready);
  }

  lemma {:induction false} RemainingNobody(ready: seq<Key>)
    ensures Remaining(ready, {}) == ready
  {
    if ready != [] { RemainingNobody(ready[1..]); }
  }

  /** The partitions' queues go, and with them their places in line. */
  ghost function Emptied(l: Line, keys: set<Key>): Line {
    l.(queues := l.queues - keys, queued := l.queued - (Total(l.queues) - Total(l.queues - keys)),
       ready := Remaining(l.ready, keys), waiting := l.waiting - keys)
  }

  lemma {:induction false} TotalShrinks(q: Queues, keys: set<Key>)
    ensures Total(q - keys) <= Total(q)
    decreases |keys|
  {
    if keys == {} {
      assert q - keys == q;
    } else {
      var k :| k in keys;
      TotalShrinks(q - {k}, keys - {k});
      assert q - {k} - (keys - {k}) == q - keys;
      TotalRemove(q, k);
    }
  }

  lemma EmptiedShaped(l: Line, keys: set<Key>)
    requires Shaped(l)
    ensures Shaped(Emptied(l, keys)) && Emptied(l, keys).queued <= l.queued
    ensures Dispatched(l) ==> Dispatched(Emptied(l, keys))
  {
    RemainingMembers(l.ready, keys);
    TotalShrinks(l.queues, keys);
  }

  /** Nothing is left of the dropped partitions that could line up, so their pauses may go as well. */
  lemma DroppedShaped(l: Line, keys: set<Key>)
    requires Shaped(l)
    ensures Shaped(Emptied(l, keys).(paused := l.paused - keys)) && Emptied(l, keys).queued <= l.queued
    ensures Dispatched(l) ==> Dispatched(Emptied(l, keys))
  {
    EmptiedShaped(l, keys);
    var e := Emptied(l, keys);
    assert forall k :: At(e.queues, k) != [] ==> k !in keys;
  }

  function Outdated(watermarks: map<Key, nat>, keys: set<Key>): map<Key, nat> {
    map k | k in watermarks.Keys + keys :: if k in keys then Tag(watermarks, k) + 1 else watermarks[k]
  }

  function Noted(h: Holding, gone: set<Key>): Holding {
    h.(lost := h.lost + gone,
       lostUnder := map k | k in h.lostUnder.Keys + gone :: if k in gone then h.streams else h.lostUnder[k])
  }

  /** What a member forgets of the partitions it lost, the pauses among it. */
  ghost function Lost(s: State, gone: set<Key>): State {
    s.(line := Emptied(s.line, gone).(paused := s.line.paused - gone),
       marks := Marks(s.marks.lastQueued - gone, Outdated(s.marks.watermarks, gone), s.marks.epochs - gone),
       holding := Noted(s.holding, gone))
  }

  lemma LostTwice(s: State, keys: set<Key>, k: Key)
    requires k !in keys
    ensures Lost(Lost(s, keys), {k}) == Lost(s, keys + {k})
  {
    var l := s.line;
    EmptiedTwice(l.(paused := l.paused - keys), keys, k);
    EmptiedTwice(l, keys, k);
    var t, r := Lost(Lost(s, keys), {k}), Lost(s, keys + {k});
    assert t.line == r.line;
    assert t.marks == r.marks by { OutdatedTwice(s.marks.watermarks, keys, k); }
    assert t.holding.lostUnder == r.holding.lostUnder;
    assert t.holding.lost == r.holding.lost;
  }

  lemma OutdatedTwice(w: map<Key, nat>, keys: set<Key>, k: Key)
    requires k !in keys
    ensures Outdated(Outdated(w, keys), {k}) == Outdated(w, keys + {k})
  {
  }

  lemma LostNone(s: State)
    ensures Lost(s, {}) == s
  {
    EmptiedNone(s.line);
    assert s.line.paused - {} == s.line.paused;
    assert Outdated(s.marks.watermarks, {}) == s.marks.watermarks;
    assert Lost(s, {}).holding == s.holding;
  }

  /** `rotate`: the stream is replaced, and everything queued from it goes. */
  ghost function Rotated(s: State): State {
    if !s.holding.current || s.line.stopped then s
    else
      s.(line := Emptied(s.line, s.line.queues.Keys),
         marks := Marks(map[], Outdated(s.marks.watermarks, s.marks.lastQueued.Keys), s.marks.epochs),
         holding := s.holding.(lost := {}, current := false))
  }

  /** Everything the member has any trace of. */
  function Held(s: State): set<Key> {
    s.holding.holds + s.line.queues.Keys + s.marks.lastQueued.Keys + s.marks.epochs + s.line.paused
  }

  function Gone(s: State, now: set<Key>): set<Key> { Held(s) - now }

  /** The new assignment taken over, before the stream is looked at. */
  ghost function TakenOver(s: State, now: set<Key>): State {
    var t := Lost(s, Gone(s, now));
    t.(holding := t.holding.(holds := now, lost := t.holding.lost - now))
  }

  /** The state a join leaves before it lets a waiting reader go on. */
  ghost function Rejoined(s: State, now: set<Key>): State {
    var t := TakenOver(s, now);
    if Lost(s, Gone(s, now)).holding.lost * now != {} then Rotated(t) else t
  }

  /** `joined`. */
  ghost function Joined(s: State, now: set<Key>): State {
    Release(Rejoined(s, now))
  }

  // ------------------------------------------------------------ the machine

  /** A new stream: it starts from what is committed, for all that is held now. */
  function Opened(s: State): State {
    var holds := if s.assignments.Some? then s.assignments.value else {};
    s.(reader := Reading, holding := s.holding.(current := true, streams := s.holding.streams + 1, holds := holds, lost := {}))
  }

  function Stopping(s: State): State {
    Release(s.(line := s.line.(stopped := true), holding := s.holding.(current := false)))
  }

  function StopDone(s: State): State { s.(line := s.line.(queues := map[], ready := [], waiting := {}, queued := 0)) }

  predicate Can(s: State, move: Move) {
    match move
    case Read(_, _, _) | StreamEnds => s.reader.Reading?
    case GoOn(_) => s.reader.Woken?
    case Open => s.reader.Ended? && !s.line.stopped
    case Settle(k, _) => k in s.line.running
    case Join => s.assignments.Some?
    case StopEnds => s.reader.Ended? && s.line.stopped
    case _ => true
  }

  ghost function Next(s: State, move: Move): (r: State)
    requires Shaped(s.line) && Can(s, move)
  {
    match move
    case Read(k, offset, parks) =>
      if s.line.queued >= s.bufferedMessages then s.(reader := Waiting(k, offset)) else Accept(s, k, offset, parks)
    case GoOn(parks) => Accept(s, s.reader.key, s.reader.offset, parks)
    case StreamEnds => s.(reader := Ended, holding := s.holding.(current := false))
    case Open => Opened(s)
    case Settle(k, parks) => Finish(s, k, parks)
    case Pause(keys) => s.(line := s.line.(paused := s.line.paused + Members(keys)))
    case Resume(keys, parks) => Unpaused(s, keys, parks)
    case Rebalance(now) => s.(assignments := Some(now))
    case Join => Joined(s, s.assignments.value)
    case DropStream => s.(holding := s.holding.(current := false))
    case StopBegins => Stopping(s)
    case StopEnds => StopDone(s)
  }

  // ------------------------------------------------------ what a step keeps

  lemma OrderAppends(h: seq<Message>, mark: nat, known: bool, last: nat, offset: nat)
    requires OrderOk(h, mark, known, last) && (known ==> last < offset)
    ensures OrderOk(h + [Message(offset, mark)], mark, true, offset)
  {
  }

  lemma PushedHistory(s: State, k: Key, offset: nat)
    ensures Pushed(s, k, offset).History(k) == s.History(k) + [Message(offset, Tag(s.marks.watermarks, k))]
    ensures forall q :: q != k ==> Pushed(s, k, offset).History(q) == s.History(q)
  {
    assert Pushed(s, k, offset).History(k) == s.History(k) + [Message(offset, Tag(s.marks.watermarks, k))];
  }

  lemma PushedOrdered(s: State, k: Key, offset: nat)
    requires Ordered(s) && !Repeats(s.marks, k, offset)
    ensures Ordered(Pushed(s, k, offset))
  {
    var r := Pushed(s, k, offset);
    PushedHistory(s, k, offset);
    forall q ensures OrderOk(r.History(q), Tag(r.marks.watermarks, q), q in r.marks.lastQueued, Tag(r.marks.lastQueued, q)) {
      var h, mark, known, last := s.History(q), Tag(s.marks.watermarks, q), q in s.marks.lastQueued, Tag(s.marks.lastQueued, q);
      assert OrderOk(h, mark, known, last);
      if q == k { OrderAppends(h, mark, known, last, offset); }
    }
  }

  lemma EnqueueKeeps(s: State, k: Key, offset: nat, parks: Parks)
    requires Valid(s) && s.line.queued < s.bufferedMessages && s.reader == Reading
    ensures Valid(Enqueue(s, k, offset, parks))
  {
    if s.IsAssigned(k) && !Repeats(s.marks, k, offset) {
      var t := Pushed(s, k, offset);
      PushedShaped(s, k, offset);
      PushedOrdered(s, k, offset);
      var _, _ := DispatchMoves(t, parks);
    }
  }

  lemma AcceptKeeps(s: State, k: Key, offset: nat, parks: Parks)
    requires Valid(s) && (s.holding.current ==> s.line.queued < s.bufferedMessages)
    ensures Valid(Accept(s, k, offset, parks))
  {
    if !s.line.stopped && s.holding.current {
      var t := s.(reader := Reading);
      OrderedSame(s, t);
      EnqueueKeeps(t, k, offset, parks);
    } else {
      OrderedSame(s, s.(reader := Ended));
    }
  }

  lemma ResumeKeeps(s: State, keys: seq<Key>, parks: Parks)
    requires Valid(s)
    ensures Valid(Unpaused(s, keys, parks))
  {
    ResumedShaped(s.line, keys);
    var back := ResumedJoins(s.line, keys);
    var t := s.(line := Resumed(s.line, keys));
    OrderedSame(s, t);
    var _, _ := DispatchMoves(t, parks);
  }

  lemma SettleKeeps(s: State, k: Key, parks: Parks)
    requires Valid(s) && k in s.line.running
    ensures Valid(Finish(s, k, parks))
  {
    var _, _ := FinishMoves(s, k, parks);
  }

  /** What is left of an ordered history is ordered, whether its watermark is still known or outdated. */
  lemma OrderedShrinks(s: State, r: State)
    requires Ordered(s)
    requires forall k :: r.History(k) <= s.History(k)
    requires forall k ::
      || (Tag(r.marks.watermarks, k) == Tag(s.marks.watermarks, k) && (k in r.marks.lastQueued <==> k in s.marks.lastQueued)
          && Tag(r.marks.lastQueued, k) == Tag(s.marks.lastQueued, k))
      || Tag(r.marks.watermarks, k) > Tag(s.marks.watermarks, k)
    ensures Ordered(r)
  {
    forall k ensures OrderOk(r.History(k), Tag(r.marks.watermarks, k), k in r.marks.lastQueued, Tag(r.marks.lastQueued, k)) {
      assert OrderOk(s.History(k), Tag(s.marks.watermarks, k), k in s.marks.lastQueued, Tag(s.marks.lastQueued, k));
      var h, g := s.History(k), r.History(k);
      assert forall i :: 0 <= i < |g| ==> g[i] == h[i];
    }
  }

  lemma EmptiedHistory(s: State, keys: set<Key>, r: State)
    requires r.taken == s.taken && r.line.queues == s.line.queues - keys
    ensures forall k :: r.History(k) <= s.History(k)
    ensures forall k :: k !in keys ==> r.History(k) == s.History(k)
  {
  }

  lemma TakenOverKeeps(s: State, now: set<Key>)
    requires Valid(s)
    ensures Shaped(TakenOver(s, now).line) && Ordered(TakenOver(s, now)) && Dispatched(TakenOver(s, now).line)
    ensures TakenOver(s, now).line.queued <= s.line.queued
  {
    var gone, r := Gone(s, now), TakenOver(s, now);
    DroppedShaped(s.line, gone);
    EmptiedHistory(s, gone, r);
    OrderedShrinks(s, r);
  }

  lemma RotatedKeeps(s: State)
    requires Shaped(s.line) && Ordered(s) && Dispatched(s.line)
    ensures Shaped(Rotated(s).line) && Ordered(Rotated(s)) && Dispatched(Rotated(s).line)
    ensures Rotated(s).line.queued <= s.line.queued
  {
    var keys, r := s.line.queues.Keys, Rotated(s);
    if s.holding.current && !s.line.stopped {
      EmptiedShaped(s.line, keys);
      EmptiedHistory(s, keys, r);
      forall k ensures
        || (Tag(r.marks.watermarks, k) == Tag(s.marks.watermarks, k) && (k in r.marks.lastQueued <==> k in s.marks.lastQueued)
            && Tag(r.marks.lastQueued, k) == Tag(s.marks.lastQueued, k))
        || Tag(r.marks.watermarks, k) > Tag(s.marks.watermarks, k)
      {
        if k in s.marks.lastQueued { assert Tag(r.marks.watermarks, k) == Tag(s.marks.watermarks, k) + 1; }
      }
      OrderedShrinks(s, r);
    }
  }

  lemma ReleaseKeeps(s: State)
    requires Ordered(s) && WokenOk(s) && Shaped(s.line) && Dispatched(s.line)
    ensures Ordered(Release(s)) && WokenOk(Release(s)) && RoomOk(Release(s)) && Release(s).line == s.line
  {
    OrderedSame(s, Release(s));
  }

  lemma RejoinedKeeps(s: State, now: set<Key>)
    requires Valid(s)
    ensures Shaped(Rejoined(s, now).line) && Ordered(Rejoined(s, now)) && Dispatched(Rejoined(s, now).line)
    ensures WokenOk(Rejoined(s, now)) && Rejoined(s, now).line.queued <= s.line.queued
  {
    TakenOverKeeps(s, now);
    RotatedKeeps(TakenOver(s, now));
  }

  lemma JoinHolding(s: State, now: set<Key>)
    requires HoldingOk(s) && WokenOk(s)
    ensures HoldingOk(Joined(s, now))
  {
    var gone := Gone(s, now);
    var t, u, r := Lost(s, gone), TakenOver(s, now), Joined(s, now);
    if t.holding.lost * now != {} {
      assert !Rotated(u).holding.current;
    } else {
      assert r.holding == u.holding;
      forall k | k in t.holding.lost ensures k !in now { assert k in now ==> k in t.holding.lost * now; }
      assert t.holding.lost - now == t.holding.lost;
    }
  }

  lemma JoinKeeps(s: State, now: set<Key>)
    requires Valid(s)
    ensures Valid(Joined(s, now))
  {
    RejoinedKeeps(s, now);
    ReleaseKeeps(Rejoined(s, now));
    JoinHolding(s, now);
  }

  lemma StopKeeps(s: State, move: Move)
    requires Valid(s) && Can(s, move) && (move.StopBegins? || move.StopEnds?)
    ensures Valid(Next(s, move))
  {
    var r := Next(s, move);
    if move.StopEnds? {
      EmptiedHistory(s, s.line.queues.Keys, r);
      OrderedShrinks(s, r);
    } else {
      OrderedSame(s, r);
    }
  }

  lemma StreamKeeps(s: State, move: Move)
    requires Valid(s) && Can(s, move)
    requires move.StreamEnds? || move.Open? || move.DropStream? || move.Rebalance?
    ensures Valid(Next(s, move))
  {
    OrderedSame(s, Next(s, move));
  }

  /** Every step keeps the line, the bound on the buffer, the order and the watermarks. */
  lemma NextKeeps(s: State, move: Move)
    requires Valid(s) && Can(s, move)
    ensures Valid(Next(s, move))
  {
    match move
    case Read(k, offset, parks) =>
      if s.line.queued >= s.bufferedMessages { OrderedSame(s, Next(s, move)); } else { AcceptKeeps(s, k, offset, parks); }
    case GoOn(parks) => AcceptKeeps(s, s.reader.key, s.reader.offset, parks);
    case Settle(k, parks) => SettleKeeps(s, k, parks);
    case Pause(keys) => OrderedSame(s, Next(s, move));
    case Resume(keys, parks) => ResumeKeeps(s, keys, parks);
    case Join => JoinKeeps(s, s.assignments.value);
    case StopBegins | StopEnds => StopKeeps(s, move);
    case _ => StreamKeeps(s, move);
  }
}
