/**
 * One partition as one consumer group member sees it: the adapter's session on
 * it, the message parked on it, the batch being collected, and every
 * activation of `process`, `collect`, `runBatch` or `park` that is still
 * alive. Each event below is the code between two suspension points.
 */
module Lanes {
  import opened Basics

  /** How the topic's subscription takes its messages. */
  datatype Kind = Each | Batch(size: nat)

  /** A message in memory: its offset, and the revocation count it was taken under. */
  datatype Item = Item(off: nat, epoch: nat)

  /** Who waits for the activation: the adapter's delivery, a parked message's chain, or nobody. */
  datatype Origin = Delivery | Chain | Flush

  datatype Stage =
    | Decoding
    | Salvaging(bad: seq<nat>, decoded: seq<nat>)
    | Handling(decoded: seq<nat>)
    | Forwarding(left: seq<nat>)
    | Committing

  datatype Task =
    | Waiting(off: nat, epoch: nat, ahead: Option<nat>)
    | Parked(off: nat, epoch: nat, granted: bool, aborted: bool)
    | Joining(off: nat, epoch: nat, origin: Origin, behind: nat)
    | Run(items: seq<Item>, origin: Origin, unroutable: bool, stage: Stage, handled: seq<nat>, forwarded: seq<nat>)
    | Closing(epoch: nat)
    | Transaction(run: nat, items: seq<Item>, salvaged: seq<nat>, offs: seq<nat>)   // begun by the handler that was given `offs`

  datatype Lane = Lane(
    epoch: nat,           // how many times the partition was revoked
    next: Option<nat>,    // the offset delivered next, while the partition is assigned
    paused: bool,
    front: Option<nat>,   // what the session's latest delivery became, until it is over
    parked: Option<nat>,  // the task waiting for its due time
    batch: seq<Item>,     // the batch being collected
    run: Option<nat>,     // the batch that is running
    tasks: map<nat, Task>,
    nextId: nat)

  const UNASSIGNED := Lane(0, None, false, None, None, [], None, map[], 0)

  /** What became of a delivery when `process` first looked at it. */
  datatype Admission = Now | Hold | Park | Unroutable

  datatype Outcome =
    | Resolved
    | Threw
    | Listed(names: set<nat>)   // BatchFailedError
    | Aborting                  // AbortProcessingError, or a fenced producer
    | Released                  // a circuit hold that a stop or a revocation ended

  datatype Event =
    | Assign(start: nat)
    | Revoke
    | Deliver(how: Admission)
    | Wake(id: nat)
    | Grant(id: nat)
    | ReEnter(id: nat)
    | Drop(id: nat)
    | Resume(id: nat)
    | JoinWake(id: nat)
    | MaxWait
    | Decode(id: nat, bad: set<nat>)
    | HopAcked(id: nat)
    | HopFailed(id: nat)
    | Handler(id: nat, outcome: Outcome)
    | TransactionBegin(id: nat)
    | TransactionCommit(id: nat)
    | TransactionAbort(id: nat)
    | CommitDone(id: nat, landed: bool)

  /**
   * A step's effect outside the lane: offsets settled, offsets a transaction
   * took along before their handler was done, an offset committed, a stop
   * begun by the pipeline.
   */
  datatype Result = Result(lane: Lane, settles: seq<nat>, takes: seq<nat>, commit: Option<nat>, stop: bool)

  function Quiet(l: Lane): Result { Result(l, [], [], None, false) }

  function Settling(l: Lane, settles: seq<nat>): Result { Result(l, settles, [], None, false) }

  function Stopping(l: Lane): Result { Result(l, [], [], None, true) }

  function Offs(items: seq<Item>): (r: seq<nat>)
    ensures |r| == |items| && forall i :: 0 <= i < |r| ==> r[i] == items[i].off
  {
    seq(|items|, i requires 0 <= i < |items| => items[i].off)
  }

  function Last(items: seq<Item>): nat
    requires items != []
  {
    items[|items| - 1].off
  }

  // ---------------------------------------------------------------- steps

  predicate Has(l: Lane, id: nat) { id in l.tasks }

  /** The adapter's promise for this delivery has not settled. */
  predicate HoldsDelivery(t: Task) {
    t.Waiting? || (t.Joining? && t.origin.Delivery?) || (t.Run? && t.origin.Delivery?)
  }

  /** A parked message on its way back through the pipeline; its end resumes the partition. */
  predicate IsChain(t: Task) {
    t.Parked? || t.Closing? || (t.Joining? && t.origin.Chain?) || (t.Run? && t.origin.Chain?)
  }

  /** The `lost()` check: the consumer is not running, or the partition was revoked since. */
  predicate Lost(running: bool, l: Lane, epoch: nat) { !running || l.epoch != epoch }

  predicate Enabled(k: Kind, running: bool, high: nat, l: Lane, e: Event) {
    match e
    case Assign(start) => l.next.None?
    case Revoke => true
    case Deliver(how) =>
      && l.next.Some? && l.next.value < high && !l.paused
      && (l.front.Some? && l.front.value in l.tasks ==> !HoldsDelivery(l.tasks[l.front.value]))
      && (how.Park? ==> l.parked.None?)
      && (how.Unroutable? ==> k.Each?)
    case Wake(id) =>
      Has(l, id) && l.tasks[id].Waiting? && (l.tasks[id].ahead.Some? ==> l.tasks[id].ahead.value !in l.tasks)
    case Grant(id) => Has(l, id) && l.tasks[id].Parked? && !l.tasks[id].aborted && !l.tasks[id].granted
    case ReEnter(id) => Has(l, id) && l.tasks[id].Parked? && l.tasks[id].granted
    case Drop(id) => Has(l, id) && l.tasks[id].Parked? && l.tasks[id].aborted && !l.tasks[id].granted
    case Resume(id) => Has(l, id) && l.tasks[id].Closing?
    case JoinWake(id) => Has(l, id) && l.tasks[id].Joining? && BatchOver(l, l.tasks[id].behind)
    case MaxWait => l.batch != []
    case Decode(id, bad) => Has(l, id) && l.tasks[id].Run? && l.tasks[id].stage.Decoding?
    case HopAcked(id) => CanHop(l, id)
    case HopFailed(id) => CanHop(l, id)
    case Handler(id, out) =>
      && Has(l, id) && l.tasks[id].Run? && l.tasks[id].stage.Handling? && l.tasks[id].items != []
      && (out.Released? ==> Lost(running, l, l.tasks[id].items[0].epoch))
      && (out.Listed? ==> k.Batch?)
    case TransactionBegin(id) => Has(l, id) && l.tasks[id].Run? && l.tasks[id].stage.Handling? && l.tasks[id].items != []
    case TransactionCommit(id) => Has(l, id) && l.tasks[id].Transaction? && l.tasks[id].items != []
    case TransactionAbort(id) => Has(l, id) && l.tasks[id].Transaction?
    case CommitDone(id, landed) => Has(l, id) && l.tasks[id].Run? && l.tasks[id].stage.Committing? && l.tasks[id].items != []
  }

  /** The batch somebody waits for has run, though a chain that brought it may still have the partition to resume. */
  predicate BatchOver(l: Lane, run: nat) { run !in l.tasks || l.tasks[run].Closing? }

  predicate CanHop(l: Lane, id: nat) {
    Has(l, id) && l.tasks[id].Run? &&
    match l.tasks[id].stage
    case Salvaging(bad, _) => bad != []
    case Forwarding(left) => left != []
    case _ => false
  }

  /** The offset a hop in progress forwards: the first one left. */
  function Hopping(l: Lane, id: nat): nat
    requires CanHop(l, id)
  {
    var s := l.tasks[id].stage;
    if s.Salvaging? then s.bad[0] else s.left[0]
  }

  /** The activation is over: its delivery settles, or its chain goes on to resume the partition. */
  function End(l: Lane, id: nat, origin: Origin, epoch: nat): Lane {
    if origin.Chain? then l.(tasks := l.tasks[id := Closing(epoch)])
    else l.(tasks := l.tasks - {id}, front := if l.front == Some(id) then None else l.front)
  }

  function NewRun(items: seq<Item>, origin: Origin): Task { Run(items, origin, false, Decoding, [], []) }

  /** `collect`, once no batch of the partition runs. */
  function Push(size: nat, l: Lane, id: nat, off: nat, origin: Origin): Lane {
    var items := l.batch + [Item(off, l.epoch)];
    if |items| < size then End(l.(batch := items), id, origin, l.epoch)
    else l.(batch := [], run := Some(id), tasks := l.tasks[id := NewRun(items, origin)])
  }

  /** `process`, past every wait. */
  function Enter(k: Kind, l: Lane, id: nat, off: nat, origin: Origin): Lane {
    match k
    case Each => l.(tasks := l.tasks[id := NewRun([Item(off, l.epoch)], origin)])
    case Batch(size) =>
      if l.run.Some? then l.(tasks := l.tasks[id := Joining(off, l.epoch, origin, l.run.value)])
      else Push(size, l, id, off, origin)
  }

  function FinishRun(l: Lane, id: nat, t: Task): Lane
    requires t.Run? && t.items != []
  {
    End(l.(run := if l.run == Some(id) then None else l.run), id, t.origin, t.items[0].epoch)
  }

  /** `flushBatch`: the collected items run now, on a delivery of their own. */
  function FlushBatch(l: Lane): Lane {
    if l.batch == [] then l
    else l.(batch := [], run := Some(l.nextId), tasks := l.tasks[l.nextId := NewRun(l.batch, Flush)], nextId := l.nextId + 1)
  }

  /** `discardParked`: the timer aborts and the entry goes. */
  function AbortParked(l: Lane): Lane {
    if l.parked.Some? && l.parked.value in l.tasks && l.tasks[l.parked.value].Parked? then
      l.(parked := None, tasks := l.tasks[l.parked.value := l.tasks[l.parked.value].(aborted := true)])
    else l.(parked := None)
  }

  /** `settleRevoked`, for one partition; a later assignment of it starts unpaused. */
  function Revoked(l: Lane): Lane {
    AbortParked(FlushBatch(l)).(epoch := l.epoch + 1, next := None, front := None, paused := false)
  }

  /** What a beginning stop does to the partition: batches and parked messages are discarded. */
  function Stopped(l: Lane): Lane { AbortParked(l.(batch := [])) }

  function Delivered(k: Kind, running: bool, l: Lane, how: Admission): Lane
    requires l.next.Some?
  {
    var off, id := l.next.value, l.nextId;
    var l1 := l.(next := Some(off + 1), nextId := id + 1);
    if !running then l1 else
    match how
    case Unroutable =>
      l1.(front := Some(id), tasks := l1.tasks[id := Run([Item(off, l.epoch)], Delivery, true, Salvaging([off], []), [], [])])
    case Hold => l1.(front := Some(id), tasks := l1.tasks[id := Waiting(off, l.epoch, l.parked)])
    case Park => l1.(front := Some(id), parked := Some(id), paused := true, tasks := l1.tasks[id := Parked(off, l.epoch, false, false)])
    case Now => Enter(k, l1.(front := Some(id)), id, off, Delivery)
  }

  function WithStage(l: Lane, id: nat, t: Task, stage: Stage): Lane
    requires t.Run?
  {
    l.(tasks := l.tasks[id := t.(stage := stage)])
  }

  /** `commit`: nothing is committed for a delivery shutdown gave up on. */
  function ToCommit(abandoned: bool, l: Lane, id: nat, t: Task): Lane
    requires t.Run? && t.items != []
  {
    if abandoned then FinishRun(l, id, t) else WithStage(l, id, t, Committing)
  }

  function ToForward(abandoned: bool, l: Lane, id: nat, t: Task, left: seq<nat>): Lane
    requires t.Run? && t.items != []
  {
    if left == [] then ToCommit(abandoned, l, id, t) else WithStage(l, id, t, Forwarding(left))
  }

  /** After the undecodable messages went down their ladder: the handler, if anything is left for it. */
  function ToHandler(abandoned: bool, l: Lane, id: nat, t: Task, decoded: seq<nat>): Lane
    requires t.Run? && t.items != []
  {
    if decoded == [] then ToCommit(abandoned, l, id, t) else WithStage(l, id, t, Handling(decoded))
  }

  function Decoded(abandoned: bool, l: Lane, id: nat, t: Task, bad: set<nat>): Lane
    requires t.Run? && t.items != []
  {
    var failed := Select(Offs(t.items), bad, true);
    var decoded := Select(Offs(t.items), bad, false);
    if abandoned then FinishRun(l, id, t)
    else if failed == [] then ToHandler(abandoned, l, id, t, decoded)
    else WithStage(l, id, t, Salvaging(failed, decoded))
  }

  function Acked(abandoned: bool, l: Lane, id: nat): Result
    requires CanHop(l, id) && l.tasks[id].items != []
  {
    var t := l.tasks[id];
    var off := Hopping(l, id);
    var t1 := t.(forwarded := t.forwarded + [off]);
    var l1 := match t.stage
      case Salvaging(bad, decoded) =>
        if bad[1..] == [] then ToHandler(abandoned, l, id, t1, decoded) else WithStage(l, id, t1, Salvaging(bad[1..], decoded))
      case Forwarding(left) => ToForward(abandoned, l, id, t1, left[1..])
      case _ => l;
    Settling(l1, [off])
  }

  function Handled(abandoned: bool, l: Lane, id: nat, out: Outcome): Result
    requires Has(l, id) && l.tasks[id].Run? && l.tasks[id].stage.Handling? && l.tasks[id].items != []
  {
    var t := l.tasks[id];
    var decoded := t.stage.decoded;
    if abandoned then Settling(FinishRun(l, id, t), if out.Resolved? then decoded else [])
    else match out
    case Released => Quiet(FinishRun(l, id, t))
    case Aborting => Stopping(FinishRun(l, id, t))
    case Resolved => Settling(ToCommit(abandoned, l, id, t.(handled := t.handled + decoded)), decoded)
    case Threw => Quiet(ToForward(abandoned, l, id, t, decoded))
    case Listed(names) =>
      if Foreign(names, decoded) then Stopping(FinishRun(l, id, t))
      else
        var fine := Select(decoded, names, false);
        Settling(ToForward(abandoned, l, id, t.(handled := t.handled + fine), Select(decoded, names, true)), fine)
  }

  /** The handler names a message it was not given. */
  predicate Foreign(names: set<nat>, decoded: seq<nat>) { exists n :: n in names && n !in decoded }

  /** The handler's `ctx.transaction`: the handle is looked up once, here, and the transaction lives on its own from then on. */
  function Begun(l: Lane, id: nat): Lane
    requires Has(l, id) && l.tasks[id].Run? && l.tasks[id].stage.Handling?
  {
    var t := l.tasks[id];
    l.(tasks := l.tasks[l.nextId := Transaction(id, t.items, t.forwarded, t.stage.decoded)], nextId := l.nextId + 1)
  }

  function Step(k: Kind, running: bool, abandoned: bool, high: nat, l: Lane, e: Event): Result
    requires Enabled(k, running, high, l, e)
    requires forall id :: id in l.tasks && l.tasks[id].Run? ==> l.tasks[id].items != []
  {
    match e
    case Assign(start) => Quiet(l.(next := Some(start)))
    case Revoke => Quiet(Revoked(l))
    case Deliver(how) => Quiet(Delivered(k, running, l, how))
    case Wake(id) =>
      var t := l.tasks[id];
      Quiet(if Lost(running, l, t.epoch) then End(l, id, Delivery, t.epoch) else Enter(k, l, id, t.off, Delivery))
    case Grant(id) => Quiet(l.(tasks := l.tasks[id := l.tasks[id].(granted := true)]))
    case ReEnter(id) =>
      var l1 := l.(parked := None);
      Quiet(if !running then End(l1, id, Chain, l.tasks[id].epoch) else Enter(k, l1, id, l.tasks[id].off, Chain))
    case Drop(id) => Quiet(l.(tasks := l.tasks - {id}))
    case Resume(id) =>
      Quiet(l.(tasks := l.tasks - {id}, paused := false, front := if l.front == Some(id) then None else l.front))
    case JoinWake(id) =>
      var t := l.tasks[id];
      Quiet(if Lost(running, l, t.epoch) then End(l, id, t.origin, t.epoch)
            else match k case Batch(size) => Push(size, l, id, t.off, t.origin) case Each => l)
    case MaxWait => Quiet(FlushBatch(l))
    case Decode(id, bad) => Quiet(Decoded(abandoned, l, id, l.tasks[id], bad))
    case HopAcked(id) => Acked(abandoned, l, id)
    case HopFailed(id) => Stopping(FinishRun(l, id, l.tasks[id]))
    case Handler(id, out) => Handled(abandoned, l, id, out)
    case TransactionBegin(id) => Quiet(Begun(l, id))
    case TransactionCommit(id) => Result(l.(tasks := l.tasks - {id}), [], l.tasks[id].offs, Some(Last(l.tasks[id].items) + 1), false)
    case TransactionAbort(id) => Quiet(l.(tasks := l.tasks - {id}))
    case CommitDone(id, landed) =>
      Result(FinishRun(l, id, l.tasks[id]), [], [], if landed then Some(Last(l.tasks[id].items) + 1) else None, false)
  }
}
