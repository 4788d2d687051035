/**
 * What every lane keeps. `S` is the set of offsets of the partition that are
 * accounted for: their handler succeeded, an acknowledged copy exists, or a
 * transaction took them along. It only grows, so what a lane knows about it
 * survives everything the others do.
 */
module LaneSafety {
  import opened Basics
  import opened Lanes

  /** Every offset from the group's initial one up to `upto` is accounted for, or still open. */
  ghost predicate Covered(init: nat, S: set<nat>, upto: nat, open: seq<nat>) {
    forall x :: init <= x < upto ==> x in S || x in open
  }

  /** Consecutive offsets, taken under one revocation count. */
  ghost predicate Consecutive(items: seq<Item>) {
    forall i :: 0 <= i < |items| ==> items[i].off == items[0].off + i && items[i].epoch == items[0].epoch
  }

  /** The messages of a run that have no outcome yet. */
  function Open(t: Task): seq<nat>
    requires t.Run?
  {
    match t.stage
    case Decoding => Offs(t.items)
    case Salvaging(bad, decoded) => bad + decoded
    case Handling(decoded) => decoded
    case Forwarding(left) => left
    case Committing => []
  }

  ghost predicate SizeOk(k: Kind, n: nat) {
    match k case Each => n <= 1 case Batch(size) => n <= size
  }

  function EpochOf(t: Task): nat {
    match t
    case Waiting(_, e, _) => e
    case Parked(_, e, _, _) => e
    case Joining(_, e, _, _) => e
    case Run(items, _, _, _, _, _) => if items == [] then 0 else items[0].epoch
    case Closing(e) => e
    case Transaction(_, items, _, _) => if items == [] then 0 else items[0].epoch
  }

  /** Messages that run together: some, not too many, one after the other. */
  ghost predicate ItemsOk(k: Kind, high: nat, items: seq<Item>) {
    items != [] && Consecutive(items) && SizeOk(k, |items|) && Last(items) < high
  }

  /** Until the handler had its say it handled nothing, and it is only asked about something. */
  predicate StageOk(t: Task)
    requires t.Run?
  {
    match t.stage
    case Decoding => t.handled == [] && t.forwarded == []
    case Salvaging(bad, _) => t.handled == [] && bad != []
    case Handling(decoded) => t.handled == [] && decoded != []
    case Forwarding(left) => left != []
    case Committing => true
  }

  /**
   * A run knows that everything up to its last message is accounted for or
   * still its own, and its messages split exactly into the handled, the
   * forwarded and the open ones. A batch runs at once when it is full, and on
   * a delivery of its own when it is not.
   */
  ghost predicate RunOk(k: Kind, init: nat, high: nat, S: set<nat>, l: Lane, id: nat, t: Task)
    requires t.Run?
  {
    && ItemsOk(k, high, t.items) && StageOk(t)
    && Covered(init, S, Last(t.items) + 1, Open(t))
    && multiset(Offs(t.items)) == multiset(t.handled) + multiset(t.forwarded) + multiset(Open(t))
    && (k.Batch? ==> l.run == Some(id) && (t.origin == Flush <==> |t.items| < k.size))
    && (k.Each? ==> l.run.None? && t.origin != Flush)
    && (t.unroutable ==> k.Each?)
  }

  ghost predicate TaskOk(k: Kind, init: nat, high: nat, S: set<nat>, l: Lane, id: nat, t: Task) {
    && id < l.nextId && EpochOf(t) <= l.epoch
    && match t
       case Waiting(off, _, _) => off < high && (k.Each? ==> Covered(init, S, off, []))
       case Parked(off, _, _, _) => off < high && (k.Each? ==> Covered(init, S, off, []))
       case Joining(off, _, origin, _) => off < high && k.Batch? && origin != Flush
       case Run(_, _, _, _, _, _) => RunOk(k, init, high, S, l, id, t)
       case Closing(_) => true
       case Transaction(run, items, salvaged, offs) =>
         && run < id && ItemsOk(k, high, items) && Covered(init, S, Last(items) + 1, offs)
         && multiset(Offs(items)) == multiset(salvaged) + multiset(offs)
  }

  ghost predicate TasksOk(k: Kind, init: nat, high: nat, S: set<nat>, l: Lane) {
    forall id :: id in l.tasks ==> TaskOk(k, init, high, S, l, id, l.tasks[id])
  }

  /** The latest delivery is the one just before the next. */
  ghost predicate InPlace(next: nat, t: Task) {
    match t
    case Waiting(off, _, _) => off + 1 == next
    case Parked(off, _, _, aborted) => off + 1 == next && !aborted
    case Joining(off, _, _, _) => off + 1 == next
    case Run(items, origin, _, _, _, _) => items != [] && Last(items) + 1 == next && origin != Flush
    case Closing(_) => true
    case Transaction(_, _, _, _) => false
  }

  /** What the session's latest delivery became is of this session, and in its place. */
  ghost predicate FrontOk(l: Lane) {
    l.front.Some? ==>
      && l.front.value in l.tasks && l.next.Some?
      && EpochOf(l.tasks[l.front.value]) == l.epoch && InPlace(l.next.value, l.tasks[l.front.value])
  }

  function OffsOf(t: Task): seq<nat> {
    match t
    case Waiting(off, _, _) => [off]
    case Parked(off, _, _, _) => [off]
    case Joining(off, _, _, _) => [off]
    case Run(items, _, _, _, _, _) => Offs(items)
    case Closing(_) => []
    case Transaction(_, _, _, _) => []
  }

  /** The messages of the latest delivery. */
  function FrontOffs(l: Lane): seq<nat> {
    if l.front.Some? && l.front.value in l.tasks then OffsOf(l.tasks[l.front.value]) else []
  }

  predicate Pending(S: set<nat>, offs: seq<nat>) { exists x :: x in offs && x !in S }

  // ------------------------------------------- sessions, message by message

  /** Everything the session delivered is accounted for but its latest message, and that one keeps the partition paused if it is not a delivery. */
  ghost predicate EachSession(init: nat, high: nat, S: set<nat>, l: Lane) {
    && FrontOk(l)
    && (l.next.Some? ==> l.next.value <= high && Covered(init, S, l.next.value, FrontOffs(l)))
    && (l.front.Some? && IsChain(l.tasks[l.front.value]) && Pending(S, FrontOffs(l)) ==> l.paused)
  }

  // -------------------------------------------------- sessions, in batches

  /** A message of the open session that is not in a batch yet. */
  predicate Held(l: Lane, t: Task) {
    (t.Waiting? || (t.Parked? && !t.aborted) || t.Joining?) && EpochOf(t) == l.epoch
  }

  /** A session holds one message at a time, and a parked one keeps the partition paused. */
  ghost predicate HeldOk(l: Lane) {
    && (forall id :: id in l.tasks && Held(l, l.tasks[id]) ==> l.front == Some(id) && (IsChain(l.tasks[id]) ==> l.paused))
    && (l.parked.Some? ==> l.front == l.parked && l.parked.value in l.tasks && l.tasks[l.parked.value].Parked?)
    && (forall id :: id in l.tasks && l.tasks[id].Parked? && !l.tasks[id].aborted ==> l.parked == Some(id) && EpochOf(l.tasks[id]) == l.epoch)
  }

  /** The items of the running batch, when they are the open session's. */
  function RunOffs(l: Lane): seq<nat> {
    if l.run.Some? && l.run.value in l.tasks && l.tasks[l.run.value].Run? && EpochOf(l.tasks[l.run.value]) == l.epoch
    then Offs(l.tasks[l.run.value].items) else []
  }

  /** The latest delivery is a message that waits to be collected. */
  predicate FrontWaits(l: Lane) {
    && l.front.Some? && l.front.value in l.tasks
    && (var t := l.tasks[l.front.value]; t.Waiting? || t.Parked? || t.Joining?)
  }

  /** The batch being collected: whole, consecutive, of this session, and next to be run. */
  ghost predicate CollectOk(k: Kind, init: nat, S: set<nat>, l: Lane) {
    l.batch != [] ==>
      && k.Batch? && |l.batch| < k.size && l.run.None? && l.next.Some?
      && Consecutive(l.batch) && l.batch[0].epoch == l.epoch
      && Covered(init, S, Last(l.batch) + 1, Offs(l.batch))
      && (if FrontWaits(l) then Last(l.batch) + 2 == l.next.value else Last(l.batch) + 1 == l.next.value)
  }

  ghost predicate JoiningOk(l: Lane) {
    forall id :: id in l.tasks && l.tasks[id].Joining? && Held(l, l.tasks[id]) ==>
      l.batch == [] && (l.run.Some? ==> l.run.value == l.tasks[id].behind)
  }

  /** Everything the session delivered is accounted for or held by an activation of this member. */
  ghost predicate DeliveredOk(init: nat, high: nat, S: set<nat>, l: Lane) {
    l.next.Some? ==>
      l.next.value <= high && Covered(init, S, l.next.value, Offs(l.batch) + FrontOffs(l) + RunOffs(l))
  }

  ghost predicate BatchSession(k: Kind, init: nat, high: nat, S: set<nat>, l: Lane) {
    FrontOk(l) && HeldOk(l) && CollectOk(k, init, S, l) && JoiningOk(l) && DeliveredOk(init, high, S, l)
  }

  // -------------------------------------------------------------- the lane

  /** What holds whether the consumer runs or not. */
  ghost predicate Sound(k: Kind, init: nat, high: nat, S: set<nat>, l: Lane) {
    && (k.Batch? ==> k.size >= 1)
    && TasksOk(k, init, high, S, l)
    && (l.run.Some? ==> l.run.value in l.tasks && l.tasks[l.run.value].Run?)
    && (k.Each? ==> l.run.None? && l.batch == [])
  }

  ghost predicate SessionOk(k: Kind, init: nat, high: nat, S: set<nat>, l: Lane) {
    if k.Each? then EachSession(init, high, S, l) else BatchSession(k, init, high, S, l)
  }

  ghost predicate LaneOk(k: Kind, running: bool, abandoned: bool, init: nat, high: nat, S: set<nat>, l: Lane) {
    && Sound(k, init, high, S, l)
    && (abandoned ==> !running)
    && (if running then SessionOk(k, init, high, S, l) else l.batch == [])
  }

  /** The chain of a parked message, other than `id`'s, that still keeps the partition paused for its message. */
  predicate Guards(k: Kind, S: set<nat>, l: Lane, id: nat) {
    && l.front.Some? && l.front.value != id && l.front.value in l.tasks
    && var t := l.tasks[l.front.value];
    && IsChain(t) && (if k.Batch? then t.Parked? || t.Joining? else Pending(S, FrontOffs(l)))
  }

  /**
   * The two interleavings that break the promise. A chain of a parked message
   * resumes the partition while a later message's chain guards it; and, where
   * messages are collected, a parked message re-enters although a revocation
   * discarded it after its slot was granted.
   */
  predicate Clean(k: Kind, S: set<nat>, running: bool, l: Lane, e: Event) {
    match e
    case ReEnter(id) => running && k.Batch? && id in l.tasks && l.tasks[id].Parked? ==> !l.tasks[id].aborted
    case Resume(id) => running ==> !Guards(k, S, l, id)
    case _ => true
  }

  /** The lane after a step, with the stop it may have begun. */
  function After(r: Result): Lane { if r.stop then Stopped(r.lane) else r.lane }

  function Grow(S: set<nat>, settles: seq<nat>): set<nat> { S + (set x | x in settles) }

  /** What a step adds to what is accounted for. */
  function Gains(S: set<nat>, r: Result): set<nat> { Grow(S, r.settles + r.takes) }

  ghost predicate Kept(k: Kind, running: bool, abandoned: bool, init: nat, high: nat, S: set<nat>, r: Result) {
    && LaneOk(k, running && !r.stop, abandoned, init, high, Gains(S, r), After(r))
    && (r.commit.Some? ==> r.commit.value <= high && Covered(init, Gains(S, r), r.commit.value, []))
  }

  ghost predicate RunsHaveItems(l: Lane) { forall id :: id in l.tasks && l.tasks[id].Run? ==> l.tasks[id].items != [] }

  // ---------------------------------------------------------- small lemmas

  lemma CoveredGrows(init: nat, S: set<nat>, S': set<nat>, upto: nat, open: seq<nat>)
    requires Covered(init, S, upto, open) && S <= S'
    ensures Covered(init, S', upto, open)
  {
  }

  lemma TasksMonotone(k: Kind, init: nat, high: nat, S: set<nat>, high': nat, S': set<nat>, l: Lane)
    requires TasksOk(k, init, high, S, l) && high <= high' && S <= S'
    ensures TasksOk(k, init, high', S', l)
  {
    forall id | id in l.tasks
      ensures TaskOk(k, init, high', S', l, id, l.tasks[id])
    {
      assert TaskOk(k, init, high, S, l, id, l.tasks[id]);
    }
  }

  /** What a lane knows survives more accounted offsets and a longer log. */
  lemma Monotone(k: Kind, running: bool, abandoned: bool, init: nat, high: nat, S: set<nat>, high': nat, S': set<nat>, l: Lane)
    requires LaneOk(k, running, abandoned, init, high, S, l)
    requires high <= high' && S <= S'
    ensures LaneOk(k, running, abandoned, init, high', S', l)
  {
    TasksMonotone(k, init, high, S, high', S', l);
  }

  /** The other activations of a lane do not see one of them change. */
  lemma SwapTask(k: Kind, init: nat, high: nat, S: set<nat>, l: Lane, S': set<nat>, l': Lane, own: nat)
    requires TasksOk(k, init, high, S, l) && S <= S'
    requires l'.epoch == l.epoch && l'.nextId >= l.nextId
    requires own in l'.tasks ==> TaskOk(k, init, high, S', l', own, l'.tasks[own])
    requires forall id :: id in l'.tasks && id != own ==> id in l.tasks && l'.tasks[id] == l.tasks[id]
    requires l'.run == l.run || (k.Batch? && forall id :: id in l'.tasks && id != own ==> !l'.tasks[id].Run?)
    ensures TasksOk(k, init, high, S', l')
  {
    forall id | id in l'.tasks && id != own
      ensures TaskOk(k, init, high, S', l', id, l'.tasks[id])
    {
      assert TaskOk(k, init, high, S, l, id, l.tasks[id]);
    }
  }

  lemma SoundHasItems(k: Kind, init: nat, high: nat, S: set<nat>, l: Lane)
    requires TasksOk(k, init, high, S, l)
    ensures RunsHaveItems(l)
  {
    forall id | id in l.tasks && l.tasks[id].Run? ensures l.tasks[id].items != [] {
      assert TaskOk(k, init, high, S, l, id, l.tasks[id]);
    }
  }

  lemma IdsBelowNext(k: Kind, init: nat, high: nat, S: set<nat>, l: Lane)
    requires TasksOk(k, init, high, S, l)
    ensures forall id :: id in l.tasks ==> id < l.nextId
  {
    forall id | id in l.tasks ensures id < l.nextId {
      assert TaskOk(k, init, high, S, l, id, l.tasks[id]);
    }
  }

  /** Whatever a revocation or a stop does to the tasks, it marks at most one parked message. */
  lemma AbortedTasksOk(k: Kind, init: nat, high: nat, S: set<nat>, l: Lane, l': Lane)
    requires TasksOk(k, init, high, S, l) && l'.tasks == AbortParked(l).tasks
    requires l'.epoch >= l.epoch && l'.nextId == l.nextId && l'.run == l.run
    ensures TasksOk(k, init, high, S, l')
  {
    forall id | id in l'.tasks
      ensures TaskOk(k, init, high, S, l', id, l'.tasks[id])
    {
      assert TaskOk(k, init, high, S, l, id, l.tasks[id]);
    }
  }

  lemma StopKeeps(k: Kind, running: bool, abandoned: bool, init: nat, high: nat, S: set<nat>, l: Lane)
    requires LaneOk(k, running, abandoned, init, high, S, l)
    ensures LaneOk(k, false, abandoned, init, high, S, Stopped(l))
  {
    var l0 := l.(batch := []);
    forall id | id in l0.tasks ensures TaskOk(k, init, high, S, l0, id, l0.tasks[id]) {
      assert TaskOk(k, init, high, S, l, id, l.tasks[id]);
    }
    AbortedTasksOk(k, init, high, S, l0, Stopped(l));
  }

  lemma FlushSound(k: Kind, init: nat, high: nat, S: set<nat>, l: Lane)
    requires Sound(k, init, high, S, l)
    requires l.batch != [] ==> CollectOk(k, init, S, l) && l.next.Some? && l.next.value <= high
    ensures Sound(k, init, high, S, FlushBatch(l)) && FlushBatch(l).batch == []
  {
    var l' := FlushBatch(l);
    if l.batch != [] {
      forall id | id in l'.tasks
        ensures TaskOk(k, init, high, S, l', id, l'.tasks[id])
      {
        if id == l.nextId {
          assert Open(l'.tasks[id]) == Offs(l.batch);
        } else {
          assert TaskOk(k, init, high, S, l, id, l.tasks[id]);
        }
      }
    }
  }

  /** A batch can be flushed whenever the lane is fine. */
  lemma MayFlush(k: Kind, running: bool, abandoned: bool, init: nat, high: nat, S: set<nat>, l: Lane)
    requires LaneOk(k, running, abandoned, init, high, S, l)
    ensures l.batch != [] ==> CollectOk(k, init, S, l) && l.next.Some? && l.next.value <= high
  {
  }

  lemma RevokeKeeps(k: Kind, running: bool, abandoned: bool, init: nat, high: nat, S: set<nat>, l: Lane)
    requires LaneOk(k, running, abandoned, init, high, S, l)
    ensures LaneOk(k, running, abandoned, init, high, S, Revoked(l))
  {
    MayFlush(k, running, abandoned, init, high, S, l);
    FlushSound(k, init, high, S, l);
    var f := FlushBatch(l);
    var l' := Revoked(l);
    AbortedTasksOk(k, init, high, S, f, l');
    if running && k.Batch? { RevokedHolds(k, init, high, S, l); }
  }

  /** After a revocation every message left is one of the past. */
  lemma RevokedHolds(k: Kind, init: nat, high: nat, S: set<nat>, l: Lane)
    requires LaneOk(k, true, false, init, high, S, l) && k.Batch?
    requires TasksOk(k, init, high, S, FlushBatch(l))
    ensures BatchSession(k, init, high, S, Revoked(l))
  {
    var f, l' := FlushBatch(l), Revoked(l);
    forall id | id in l'.tasks
      ensures !Held(l', l'.tasks[id]) && (l'.tasks[id].Parked? ==> l'.tasks[id].aborted)
    {
      assert TaskOk(k, init, high, S, f, id, f.tasks[id]);
      assert id == l.nextId || id in l.tasks;
    }
  }

  lemma AssignKeeps(k: Kind, running: bool, abandoned: bool, init: nat, high: nat, S: set<nat>, l: Lane, start: nat)
    requires LaneOk(k, running, abandoned, init, high, S, l)
    requires Enabled(k, running, high, l, Assign(start))
    requires start <= high && Covered(init, S, start, [])
    ensures LaneOk(k, running, abandoned, init, high, S, l.(next := Some(start)))
  {
    var l' := l.(next := Some(start));
    forall id | id in l'.tasks
      ensures TaskOk(k, init, high, S, l', id, l'.tasks[id])
    {
      assert TaskOk(k, init, high, S, l, id, l.tasks[id]);
    }
  }
}
