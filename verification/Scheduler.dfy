/**
 * The per-partition gate of one consumption: queues filled from the client's
 * stream, a line of partitions waiting for a slot, and a dispatcher that
 * takes one message per free slot. A delivery that is skipped ends on the
 * spot, so the dispatcher re-enters itself.
 *
 * This module says what each operation makes of the state, and what every
 * state keeps; `Consumption` does it in place.
 */
module Scheduler {
  import opened Basics

  type Key = string

  /** A fetched message: its offset, and which of the partition's watermarks it was admitted under. */
  datatype Message = Message(offset: nat, watermark: nat)

  type Queues = map<Key, seq<Message>>

  /** The stream's reader: reading, waiting for room with a message in hand, about to go on, or done. */
  datatype Reader = Reading | Waiting(key: Key, offset: nat) | Woken(key: Key, offset: nat) | Ended

  /** The queues, the line and the slots. */
  datatype Line = Line(
    concurrency: nat,
    queues: Queues,
    ready: seq<Key>,
    waiting: set<Key>,
    running: set<Key>,
    paused: set<Key>,
    active: int,
    queued: int,
    stopped: bool)

  /** Per partition: the last offset queued, how often it was forgotten, and whether a leader epoch is known. */
  datatype Marks = Marks(lastQueued: map<Key, nat>, watermarks: map<Key, nat>, epochs: set<Key>)

  /**
   * What the last join gave, what was lost since the stream was opened,
   * whether that stream is still in use, and, for the record: how many
   * streams were opened, and the last stream each partition was lost under.
   */
  datatype Holding = Holding(holds: set<Key>, lost: set<Key>, current: bool, streams: nat, lostUnder: map<Key, nat>)

  datatype State = State(
    line: Line,
    marks: Marks,
    holding: Holding,
    reader: Reader,
    bufferedMessages: nat,
    assignments: Option<set<Key>>,
    taken: Queues)                // every message a slot took, in order
  {
    predicate IsAssigned(k: Key) { assignments.Some? ==> k in assignments.value }

    /** What was queued for a partition and not dropped: taken by a slot, or still queued. */
    function History(k: Key): seq<Message> { At(taken, k) + At(line.queues, k) }
  }

  function At(m: Queues, k: Key): seq<Message> { if k in m then m[k] else [] }

  function Tag(m: map<Key, nat>, k: Key): nat { if k in m then m[k] else 0 }

  // ------------------------------------------------------------- counting

  ghost function Total(q: Queues): nat
    decreases |q|
  {
    if q == map[] then 0
    else
      var k :| k in q;
      |q[k]| + Total(q - {k})
  }

  lemma {:induction false} TotalSplit(q: Queues, k: Key)
    requires k in q
    ensures Total(q) == |q[k]| + Total(q - {k})
    decreases |q|
  {
    var p :| p in q && Total(q) == |q[p]| + Total(q - {p});
    if p != k {
      TotalSplit(q - {p}, k);
      TotalSplit(q - {k}, p);
      assert q - {p} - {k} == q - {k} - {p};
    }
  }

  lemma TotalUpdate(q: Queues, k: Key, s: seq<Message>)
    ensures Total(q[k := s]) == Total(q) - |At(q, k)| + |s|
  {
    var r := q[k := s];
    TotalSplit(r, k);
    assert r - {k} == q - {k};
    if k in q { TotalSplit(q, k); } else { assert q - {k} == q; }
  }

  lemma TotalRemove(q: Queues, k: Key)
    ensures Total(q - {k}) == Total(q) - |At(q, k)|
  {
    if k in q { TotalSplit(q, k); } else { assert q - {k} == q; }
  }

  // --------------------------------------------------------- what holds

  ghost predicate NoRepeats(s: seq<Key>) { forall i, j :: 0 <= i < j < |s| ==> s[i] != s[j] }

  ghost predicate LineOk(l: Line) {
    && NoRepeats(l.ready)
    && (forall k :: k in l.ready <==> k in l.waiting)
    && (forall k :: k in l.waiting ==> At(l.queues, k) != [])
    && l.waiting !! l.running
  }

  /** Until the stop, whoever has a message and may run stands in line. */
  ghost predicate LinedUp(l: Line) {
    !l.stopped ==> forall k :: At(l.queues, k) != [] && k !in l.running && k !in l.paused ==> k in l.waiting
  }

  ghost predicate Shaped(l: Line) {
    && LineOk(l) && LinedUp(l)
    && l.active == |l.running| && l.active <= l.concurrency
    && l.queued == Total(l.queues)
  }

  /** Offsets increase, but for where a watermark was forgotten and a newer one took over. */
  ghost predicate InOrder(h: seq<Message>) {
    forall i, j :: 0 <= i < j < |h| ==>
      h[i].watermark <= h[j].watermark && (h[i].watermark == h[j].watermark ==> h[i].offset < h[j].offset)
  }

  /** A watermark bounds what was queued under it, and nothing was queued under a fresh one. */
  ghost predicate OrderOk(h: seq<Message>, mark: nat, known: bool, last: nat) {
    && InOrder(h)
    && (forall i :: 0 <= i < |h| ==> h[i].watermark <= mark && (h[i].watermark == mark ==> known && h[i].offset <= last))
  }

  ghost predicate Ordered(s: State) {
    forall k :: OrderOk(s.History(k), Tag(s.marks.watermarks, k), k in s.marks.lastQueued, Tag(s.marks.lastQueued, k))
  }

  /** No slot is free while the line is not empty. */
  predicate Dispatched(l: Line) { l.stopped || l.ready == [] || l.active == l.concurrency }

  /** No wakeup is lost: a reader waits only while the buffer is full. */
  predicate RoomOk(s: State) { s.reader.Waiting? ==> s.line.queued >= s.bufferedMessages }

  /** A reader about to go on finds room, or a stream that is no longer in use. */
  predicate WokenOk(s: State) {
    && (s.line.stopped ==> !s.holding.current)
    && (s.reader.Woken? && s.holding.current ==> s.line.queued < s.bufferedMessages)
  }

  /** A partition lost under the stream in use stays on the list until that stream is replaced. */
  ghost predicate HoldingOk(s: State) {
    var h := s.holding;
    && h.lost !! h.holds
    && (forall k :: k in h.lostUnder ==> h.lostUnder[k] <= h.streams)
    && (h.current ==> forall k :: k in h.lostUnder && h.lostUnder[k] == h.streams ==> k in h.lost)
  }

  ghost predicate Valid(s: State) {
    && Shaped(s.line) && Ordered(s) && Dispatched(s.line) && RoomOk(s) && WokenOk(s) && HoldingOk(s)
    && s.line.queued <= s.bufferedMessages && s.line.concurrency >= 1 && s.bufferedMessages >= 1
  }

  // ------------------------------------------------------ the small steps

  predicate CanLineUp(l: Line, k: Key) {
    k !in l.waiting && k !in l.running && k !in l.paused && At(l.queues, k) != []
  }

  function MarkReady(l: Line, k: Key): Line {
    if CanLineUp(l, k) then l.(waiting := l.waiting + {k}, ready := l.ready + [k]) else l
  }

  /** The reader goes on once there is room, or once nothing will be enqueued any more. */
  function Release(s: State): State {
    if s.reader.Waiting? && (s.line.queued < s.bufferedMessages || s.line.stopped)
    then s.(reader := Woken(s.reader.key, s.reader.offset)) else s
  }

  /** The first in line leaves it. */
  function Leave(l: Line): Line
    requires l.ready != []
  {
    l.(ready := l.ready[1..], waiting := l.waiting - {l.ready[0]})
  }

  /** A free slot takes the first message of a partition that left the line. */
  function Take(l: Line): Line
    requires l.ready != [] && At(l.queues, l.ready[0]) != []
  {
    var k := l.ready[0];
    Leave(l).(queues := l.queues[k := l.queues[k][1..]], queued := l.queued - 1, running := l.running + {k}, active := l.active + 1)
  }

  function FreeSlot(l: Line, k: Key): Line { l.(running := l.running - {k}, active := l.active - 1) }

  function Forget(m: Marks, k: Key): Marks {
    Marks(m.lastQueued - {k}, m.watermarks[k := Tag(m.watermarks, k) + 1], m.epochs - {k})
  }

  lemma TakeKeeps(l: Line)
    requires Shaped(l) && l.ready != [] && l.active < l.concurrency
    ensures At(l.queues, l.ready[0]) != []
    ensures Shaped(Take(l)) && Take(l).queued == l.queued - 1
  {
    var k := l.ready[0];
    assert k in l.ready;
    TotalUpdate(l.queues, k, l.queues[k][1..]);
  }

  lemma LeaveKeeps(l: Line)
    requires Shaped(l) && l.ready != [] && l.ready[0] in l.paused
    ensures Shaped(Leave(l))
  {
  }

  /** What a freed slot leaves behind. */
  function Freed(l: Line, k: Key): Line { if l.stopped then FreeSlot(l, k) else MarkReady(FreeSlot(l, k), k) }

  lemma FreeKeeps(l: Line, k: Key)
    requires Shaped(l) && k in l.running
    ensures Shaped(Freed(l, k))
  {
  }

  lemma PauseKeeps(l: Line, keys: set<Key>)
    requires Shaped(l)
    ensures Shaped(l.(paused := l.paused + keys))
  {
  }

  // -------------------------------------------------------- the dispatcher

  /** Which deliveries the core answers at once by pausing their partition (it parks the message). */
  type Parks = set<(Key, nat)>

  predicate SameSettings(s: State, r: State) {
    && r.line.concurrency == s.line.concurrency && r.bufferedMessages == s.bufferedMessages
    && r.line.stopped == s.line.stopped
  }

  /** A slot taking the first in line, as the whole state sees it. */
  function Taken(s: State): State
    requires s.line.ready != [] && At(s.line.queues, s.line.ready[0]) != []
  {
    var k := s.line.ready[0];
    s.(line := Take(s.line), taken := s.taken[k := At(s.taken, k) + [s.line.queues[k][0]]])
  }

  /** What a delivery does before it waits: room is announced, the epoch noted or the lost partition forgotten. */
  function Begun(s: State, k: Key, m: Message, parks: Parks): State {
    var s1 := Release(s);
    s1.(marks := if s.IsAssigned(k) then s.marks.(epochs := s.marks.epochs + {k}) else Forget(s.marks, k),
        line := if s.IsAssigned(k) && (k, m.offset) in parks then s.line.(paused := s.line.paused + {k}) else s.line)
  }

  lemma BegunKeeps(s: State, k: Key, m: Message, parks: Parks)
    requires Shaped(s.line)
    ensures Shaped(Begun(s, k, m, parks).line) && Begun(s, k, m, parks).line.queued == s.line.queued
    ensures Begun(s, k, m, parks).line.running == s.line.running
  {
    PauseKeeps(s.line, {k});
  }

  /** `dispatch`: as long as a slot is free, the head of the line is served. */
  ghost function Dispatch(s: State, parks: Parks): (r: State)
    requires Shaped(s.line)
    ensures Shaped(r.line) && r.line.queued <= s.line.queued && Dispatched(r.line) && SameSettings(s, r)
    decreases s.line.queued, 0, |s.line.ready|
  {
    if s.line.stopped || s.line.active >= s.line.concurrency || s.line.ready == [] then s
    else if s.line.ready[0] in s.line.paused then
      LeaveKeeps(s.line);
      Dispatch(s.(line := Leave(s.line)), parks)
    else
      TakeKeeps(s.line);
      var k := s.line.ready[0];
      Dispatch(Deliver(Taken(s), k, s.line.queues[k][0], parks), parks)
  }

  /** `deliver`, up to its wait for the handler, or all of it when the partition is not this member's any more. */
  ghost function Deliver(s: State, k: Key, m: Message, parks: Parks): (r: State)
    requires Shaped(s.line) && k in s.line.running
    ensures Shaped(r.line) && r.line.queued <= s.line.queued && SameSettings(s, r)
    decreases s.line.queued, 2, 0
  {
    BegunKeeps(s, k, m, parks);
    var s1 := Begun(s, k, m, parks);
    if s.IsAssigned(k) then s1 else Finish(s1, k, parks)
  }

  /** The end of a delivery: its slot is free, its partition may line up again. */
  ghost function Finish(s: State, k: Key, parks: Parks): (r: State)
    requires Shaped(s.line) && k in s.line.running
    ensures Shaped(r.line) && r.line.queued <= s.line.queued && Dispatched(r.line) && SameSettings(s, r)
    decreases s.line.queued, 1, 0
  {
    FreeKeeps(s.line, k);
    var s1 := s.(line := Freed(s.line, k));
    if s.line.stopped then s1 else Dispatch(s1, parks)
  }

  // --------------------------------------------------- what a dispatch keeps

  /** `popped` left the front of the line in order, `joined` lined up behind. */
  ghost predicate LineMoves(s: State, r: State, popped: seq<Key>, joined: seq<Key>) {
    && s.line.ready + joined == popped + r.line.ready
    && (forall i :: 0 <= i < |popped| ==> Served(s, r, popped[i]))
  }

  /** The partition had a message taken, or is paused. */
  ghost predicate Served(s: State, r: State, k: Key) {
    k in r.line.paused || |At(r.taken, k)| > |At(s.taken, k)|
  }

  /** Nothing queued is lost, reordered or invented. */
  ghost predicate Conserves(s: State, r: State) {
    && (forall k :: r.History(k) == s.History(k) && At(s.taken, k) <= At(r.taken, k))
    && s.line.paused <= r.line.paused && r.line.stopped == s.line.stopped && r.line.concurrency == s.line.concurrency
    && r.bufferedMessages == s.bufferedMessages && r.assignments == s.assignments && r.holding == s.holding
    && (!s.reader.Waiting? ==> r.reader == s.reader)
  }

  lemma MovesTogether(s: State, t: State, r: State, p1: seq<Key>, j1: seq<Key>, p2: seq<Key>, j2: seq<Key>)
    requires LineMoves(s, t, p1, j1) && LineMoves(t, r, p2, j2) && Conserves(s, t) && Conserves(t, r)
    ensures LineMoves(s, r, p1 + p2, j1 + j2) && Conserves(s, r)
  {
    assert s.line.ready + (j1 + j2) == (s.line.ready + j1) + j2;
    assert p1 + t.line.ready + j2 == p1 + (t.line.ready + j2);
    assert p1 + (p2 + r.line.ready) == (p1 + p2) + r.line.ready;
    forall i | 0 <= i < |p1 + p2| ensures Served(s, r, (p1 + p2)[i]) {
      if i < |p1| { assert Served(s, t, p1[i]); } else { assert Served(t, r, p2[i - |p1|]); }
    }
  }

  lemma OrderedSame(s: State, r: State)
    requires Ordered(s) && r.marks.lastQueued == s.marks.lastQueued && r.marks.watermarks == s.marks.watermarks
    requires forall k :: r.History(k) == s.History(k)
    ensures Ordered(r)
  {
    forall k ensures OrderOk(r.History(k), Tag(r.marks.watermarks, k), k in r.marks.lastQueued, Tag(r.marks.lastQueued, k)) {
      assert OrderOk(s.History(k), Tag(s.marks.watermarks, k), k in s.marks.lastQueued, Tag(s.marks.lastQueued, k));
    }
  }

  /** A forgotten watermark: what was queued under it stays in order, what comes next starts afresh. */
  lemma OrderedForgets(s: State, r: State, d: Key)
    requires Ordered(s) && r.marks == Forget(s.marks, d)
    requires forall k :: r.History(k) == s.History(k)
    ensures Ordered(r)
  {
    forall k ensures OrderOk(r.History(k), Tag(r.marks.watermarks, k), k in r.marks.lastQueued, Tag(r.marks.lastQueued, k)) {
      assert OrderOk(s.History(k), Tag(s.marks.watermarks, k), k in s.marks.lastQueued, Tag(s.marks.lastQueued, k));
    }
  }

  lemma TakenMoves(s: State)
    requires Shaped(s.line) && s.line.ready != [] && s.line.active < s.line.concurrency && At(s.line.queues, s.line.ready[0]) != []
    ensures LineMoves(s, Taken(s), [s.line.ready[0]], []) && Conserves(s, Taken(s))
    ensures Ordered(s) ==> Ordered(Taken(s))
  {
    var k, r := s.line.ready[0], Taken(s);
    assert s.line.ready + [] == [k] + r.line.ready;
    forall q ensures r.History(q) == s.History(q) { TakenHistory(s, q); }
    if Ordered(s) { OrderedSame(s, r); }
  }

  lemma TakenHistory(s: State, q: Key)
    requires s.line.ready != [] && At(s.line.queues, s.line.ready[0]) != []
    ensures Taken(s).History(q) == s.History(q) && At(s.taken, q) <= At(Taken(s).taken, q)
  {
    var k := s.line.ready[0];
    if q == k {
      var first, rest := s.line.queues[k][0], s.line.queues[k][1..];
      assert At(s.line.queues, k) == [first] + rest;
      Associates(At(s.taken, k), [first], rest);
    }
  }

  lemma BegunMoves(s: State, k: Key, m: Message, parks: Parks)
    ensures LineMoves(s, Begun(s, k, m, parks), [], []) && Conserves(s, Begun(s, k, m, parks)) && RoomOk(Begun(s, k, m, parks))
    ensures Ordered(s) ==> Ordered(Begun(s, k, m, parks))
    ensures WokenOk(s) ==> WokenOk(Begun(s, k, m, parks))
  {
    var r := Begun(s, k, m, parks);
    if Ordered(s) {
      if s.IsAssigned(k) { OrderedSame(s, r); } else { OrderedForgets(s, r, k); }
    }
  }

  /** A dispatch serves the line in order, from the front, and loses nothing. */
  lemma {:induction false} DispatchMoves(s: State, parks: Parks) returns (popped: seq<Key>, joined: seq<Key>)
    requires Shaped(s.line)
    ensures LineMoves(s, Dispatch(s, parks), popped, joined) && Conserves(s, Dispatch(s, parks))
    ensures !s.line.stopped && s.line.active < s.line.concurrency && s.line.ready != [] ==> popped != []
    ensures Ordered(s) ==> Ordered(Dispatch(s, parks))
    ensures WokenOk(s) ==> WokenOk(Dispatch(s, parks))
    ensures RoomOk(s) ==> RoomOk(Dispatch(s, parks))
    decreases s.line.queued, 0, |s.line.ready|
  {
    if s.line.stopped || s.line.active >= s.line.concurrency || s.line.ready == [] {
      return [], [];
    }
    var k := s.line.ready[0];
    var r := Dispatch(s, parks);
    if k in s.line.paused {
      LeaveKeeps(s.line);
      var t := s.(line := Leave(s.line));
      LeaveMoves(s);
      var p, j := DispatchMoves(t, parks);
      MovesTogether(s, t, r, [k], [], p, j);
      return [k] + p, [] + j;
    }
    DispatchOnce(s, parks);
    TakenMoves(s);
    var m := s.line.queues[k][0];
    var p1, j1 := DeliverMoves(Taken(s), k, m, parks);
    var t := Deliver(Taken(s), k, m, parks);
    var p2, j2 := DispatchMoves(t, parks);
    MovesThrice(s, Taken(s), t, r, k, p1, j1, p2, j2);
    return [k] + p1 + p2, j1 + j2;
  }

  /** A paused partition leaves the line unserved. */
  lemma LeaveMoves(s: State)
    requires Shaped(s.line) && s.line.ready != [] && s.line.ready[0] in s.line.paused
    ensures var t := s.(line := Leave(s.line));
            LineMoves(s, t, [s.line.ready[0]], []) && Conserves(s, t) && (Ordered(s) ==> Ordered(t))
  {
    var t := s.(line := Leave(s.line));
    assert s.line.ready + [] == [s.line.ready[0]] + t.line.ready;
    if Ordered(s) { OrderedSame(s, t); }
  }

  /** The first in line is taken, its delivery begun, and the dispatch goes on. */
  lemma DispatchOnce(s: State, parks: Parks)
    requires Shaped(s.line) && !s.line.stopped && s.line.active < s.line.concurrency && s.line.ready != [] && s.line.ready[0] !in s.line.paused
    ensures At(s.line.queues, s.line.ready[0]) != [] && Shaped(Taken(s).line) && Taken(s).line.queued == s.line.queued - 1
    ensures s.line.ready[0] in Taken(s).line.running
    ensures Dispatch(s, parks) == Dispatch(Deliver(Taken(s), s.line.ready[0], s.line.queues[s.line.ready[0]][0], parks), parks)
  {
    TakeKeeps(s.line);
  }

  lemma MovesThrice(s: State, a: State, t: State, r: State, k: Key, p1: seq<Key>, j1: seq<Key>, p2: seq<Key>, j2: seq<Key>)
    requires LineMoves(s, a, [k], []) && LineMoves(a, t, p1, j1) && LineMoves(t, r, p2, j2)
    requires Conserves(s, a) && Conserves(a, t) && Conserves(t, r)
    ensures LineMoves(s, r, [k] + p1 + p2, j1 + j2) && Conserves(s, r)
  {
    MovesTogether(s, a, t, [k], [], p1, j1);
    NothingBefore(j1);
    MovesTogether(s, t, r, [k] + p1, j1, p2, j2);
  }

  lemma {:induction false} DeliverMoves(s: State, k: Key, m: Message, parks: Parks) returns (popped: seq<Key>, joined: seq<Key>)
    requires Shaped(s.line) && k in s.line.running
    ensures LineMoves(s, Deliver(s, k, m, parks), popped, joined) && Conserves(s, Deliver(s, k, m, parks))
    ensures Ordered(s) ==> Ordered(Deliver(s, k, m, parks))
    ensures WokenOk(s) ==> WokenOk(Deliver(s, k, m, parks))
    ensures RoomOk(Deliver(s, k, m, parks))
    decreases s.line.queued, 2, 0
  {
    var s1 := Begun(s, k, m, parks);
    BegunKeeps(s, k, m, parks);
    BegunMoves(s, k, m, parks);
    popped, joined := [], [];
    if !s.IsAssigned(k) {
      popped, joined := FinishMoves(s1, k, parks);
      MovesTogether(s, s1, Deliver(s, k, m, parks), [], [], popped, joined);
      NothingBefore(popped);
      NothingBefore(joined);
    }
  }

  /** What the end of a delivery does to the line, before the slot is given on. */
  lemma FreedMoves(s: State, k: Key) returns (back: seq<Key>)
    ensures LineMoves(s, s.(line := Freed(s.line, k)), [], back) && Conserves(s, s.(line := Freed(s.line, k)))
    ensures Ordered(s) ==> Ordered(s.(line := Freed(s.line, k)))
  {
    var r := s.(line := Freed(s.line, k));
    back := if !s.line.stopped && CanLineUp(FreeSlot(s.line, k), k) then [k] else [];
    assert s.line.ready + back == [] + r.line.ready;
    if Ordered(s) { OrderedSame(s, r); }
  }

  lemma {:induction false} FinishMoves(s: State, k: Key, parks: Parks) returns (popped: seq<Key>, joined: seq<Key>)
    requires Shaped(s.line) && k in s.line.running
    ensures LineMoves(s, Finish(s, k, parks), popped, joined) && Conserves(s, Finish(s, k, parks))
    ensures !s.line.stopped && s.line.ready != [] ==> popped != []
    ensures Ordered(s) ==> Ordered(Finish(s, k, parks))
    ensures WokenOk(s) ==> WokenOk(Finish(s, k, parks))
    ensures RoomOk(s) ==> RoomOk(Finish(s, k, parks))
    decreases s.line.queued, 1, 0
  {
    FreeKeeps(s.line, k);
    var s1 := s.(line := Freed(s.line, k));
    var back := FreedMoves(s, k);
    popped, joined := [], back;
    if !s.line.stopped {
      var p, j := DispatchMoves(s1, parks);
      MovesTogether(s, s1, Finish(s, k, parks), [], back, p, j);
      NothingBefore(p);
      popped, joined := p, back + j;
    }
  }
}
