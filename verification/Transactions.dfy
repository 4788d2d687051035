/**
 * Transactions over the in-memory broker: calls that queue behind each
 * other, functions that send as they please, a shutdown at any time, and
 * everybody else producing meanwhile.
 */
module Transactions {
  import opened Basics
  import opened Broker

  datatype SendStatus = Pending | Landed | Failed

  datatype Send = Send(records: seq<Record>, status: SendStatus)

  /** How far a transaction has come; `Unwinding` is the way out after anything threw. */
  datatype Phase = Opening | Calling | Draining | Offsetting | Committing | Unwinding

  /**
   * `landed` is the order the broker took the sends in. For the record:
   * whether the broker opened the transaction, the function ended without
   * throwing, the harbor was open when the sends had settled, the broker took
   * the offsets, and every partition the records name was there at the end.
   */
  datatype Tx = Tx(sends: seq<Send>, landed: seq<nat>, begun: bool, resolved: bool, inTime: bool, offsetsTaken: bool, fits: bool)

  const EMPTY := Tx([], [], false, false, false, false, false)

  datatype Call = Queued | Refused | Running(phase: Phase, tx: Tx) | Ended(committed: bool, tx: Tx)

  /** Next-to-read offsets by group and partition. */
  type Offsets = map<(string, string), nat>

  /** The log of what took effect: topics made by hand, plain produces, committed transactions. */
  datatype Entry = Made(name: string, partitions: nat) | Plain(records: seq<Record>) | Done(call: nat, records: seq<Record>)

  datatype Server = Server(topics: Topics, committed: Offsets, open: bool, buffered: seq<Record>, offsets: Offsets)

  datatype State = State(calls: seq<Call>, requests: seq<Option<Offsets>>, closed: bool, server: Server, ledger: seq<Entry>)

  datatype Step =
    | Ask(inside: bool, offsets: Option<Offsets>)
    | Close(spared: Option<nat>)                  // all who wait are refused, but for one whose turn came already
    | Begin(i: nat)
    | Open(i: nat, accepted: bool)
    | Produce(i: nat, records: seq<Record>)       // the function sends, awaiting it or not
    | Land(i: nat, k: nat)                        // the send reaches the broker
    | Fail(i: nat, k: nat)                        // it could not be encoded, or the broker refused it
    | Return(i: nat)
    | Throw(i: nat)
    | Drain(i: nat)                               // every send settled
    | SendOffsets(i: nat, accepted: bool)
    | Commit(i: nat)
    | Unwind(i: nat)
    | ProducePlain(records: seq<Record>)
    | MakeTopic(name: string, partitions: nat)

  // ----------------------------------------------------------------- turns

  predicate Settled(c: Call) { c.Refused? || c.Ended? }

  /** The promise the k-th call waits for: the one before it, and that call itself. */
  predicate TurnCame(calls: seq<Call>, k: nat)
    requires k <= |calls|
  {
    k == 0 || (TurnCame(calls, k - 1) && Settled(calls[k - 1]))
  }

  lemma {:induction false} TurnMeans(calls: seq<Call>, k: nat)
    requires k <= |calls|
    ensures TurnCame(calls, k) <==> forall j :: 0 <= j < k ==> Settled(calls[j])
  {
    if k > 0 { TurnMeans(calls, k - 1); }
  }

  // ------------------------------------------------------------ the machine

  predicate At(s: State, i: nat, phase: Phase) { i < |s.calls| && s.calls[i].Running? && s.calls[i].phase == phase }

  /** A send begun and not settled. It may be left over from a transaction that ended, for all `Can` knows. */
  predicate Sending(s: State, i: nat, k: nat) {
    && i < |s.calls| && (s.calls[i].Running? || s.calls[i].Ended?)
    && k < |s.calls[i].tx.sends| && s.calls[i].tx.sends[k].status == Pending
  }

  predicate AllSettled(tx: Tx) { forall k :: 0 <= k < |tx.sends| ==> tx.sends[k].status != Pending }

  predicate AllLanded(tx: Tx) { forall k :: 0 <= k < |tx.sends| ==> tx.sends[k].status == Landed }

  predicate Can(s: State, step: Step) {
    match step
    case Begin(i) => i < |s.calls| && s.calls[i].Queued? && TurnCame(s.calls, i)
    case Close(spared) => spared.Some? ==> spared.value < |s.calls| && TurnCame(s.calls, spared.value)
    case Open(i, _) => At(s, i, Opening)
    case Produce(i, _) => i < |s.calls|
    case Land(i, k) => Sending(s, i, k)
    case Fail(i, k) => Sending(s, i, k)
    case Return(i) => At(s, i, Calling)
    case Throw(i) => At(s, i, Calling)
    case Drain(i) => At(s, i, Draining) && (AllLanded(s.calls[i].tx) || !AllOk(s.calls[i].tx))
    case SendOffsets(i, _) => At(s, i, Offsetting)
    case Commit(i) => At(s, i, Committing)
    case Unwind(i) => At(s, i, Unwinding) && AllSettled(s.calls[i].tx)
    case MakeTopic(_, n) => n > 0
    case _ => true
  }

  /** No send has failed yet. */
  predicate AllOk(tx: Tx) { forall k :: 0 <= k < |tx.sends| ==> tx.sends[k].status != Failed }

  function Moved(s: State, i: nat, c: Call): State
    requires i < |s.calls|
  {
    s.(calls := s.calls[i := c])
  }

  function ToPhase(s: State, i: nat, phase: Phase): State
    requires i < |s.calls| && s.calls[i].Running?
  {
    Moved(s, i, s.calls[i].(phase := phase))
  }

  /** One send has settled. */
  function Settling(tx: Tx, k: nat, status: SendStatus): Tx
    requires k < |tx.sends|
  {
    tx.(sends := tx.sends[k := tx.sends[k].(status := status)], landed := if status == Landed then tx.landed + [k] else tx.landed)
  }

  function WithSend(s: State, i: nat, k: nat, status: SendStatus): State
    requires Sending(s, i, k)
  {
    var tx := s.calls[i].tx;
    var tx' := Settling(tx, k, status);
    Moved(s, i, if s.calls[i].Running? then Running(s.calls[i].phase, tx') else Ended(s.calls[i].committed, tx'))
  }

  function RefuseQueued(calls: seq<Call>, spared: Option<nat>): seq<Call> {
    seq(|calls|, i requires 0 <= i < |calls| => if calls[i].Queued? && Some(i) != spared then Refused else calls[i])
  }

  /** A send that reaches the broker: an ended handle refuses it, and an empty one never gets there. */
  function Next(settings: Settings, s: State, step: Step): State
    requires Can(s, step) && settings.partitions > 0 && TopicsOk(s.server.topics)
  {
    match step
    case Ask(inside, offsets) =>
      if inside || s.closed then s else s.(calls := s.calls + [Queued], requests := s.requests + [offsets])
    case Close(spared) => s.(closed := true, calls := RefuseQueued(s.calls, spared))
    case Begin(i) => Moved(s, i, Running(Opening, EMPTY))
    case Open(i, accepted) =>
      if !accepted || s.server.open then Moved(s, i, Ended(false, s.calls[i].tx))
      else Moved(s, i, Running(Calling, s.calls[i].tx.(begun := true))).(server := s.server.(open := true, buffered := [], offsets := map[]))
    case Produce(i, records) =>
      if !At(s, i, Calling) || s.closed then s
      else Moved(s, i, Running(Calling, s.calls[i].tx.(sends := s.calls[i].tx.sends + [Send(records, Pending)])))
    case Land(i, k) =>
      var records := s.calls[i].tx.sends[k].records;
      if records != [] && (s.calls[i].Ended? || exists r :: r in records && !Fits(s.server.topics, settings, r))
      then WithSend(s, i, k, Failed)
      else WithSend(s, i, k, Landed).(server := s.server.(buffered := s.server.buffered + records))
    case Fail(i, k) => WithSend(s, i, k, Failed)
    case Return(i) => Moved(s, i, Running(Draining, s.calls[i].tx.(resolved := true)))
    case Throw(i) => ToPhase(s, i, Unwinding)
    case Drain(i) =>
      var t := Moved(s, i, Running(Draining, s.calls[i].tx.(inTime := !s.closed)));
      if s.closed || !AllLanded(s.calls[i].tx) then ToPhase(t, i, Unwinding)
      else ToPhase(t, i, if i < |s.requests| && s.requests[i].Some? then Offsetting else Committing)
    case SendOffsets(i, accepted) =>
      var t := Moved(s, i, Running(Offsetting, s.calls[i].tx.(offsetsTaken := accepted)));
      if !accepted || i >= |s.requests| || s.requests[i].None? then ToPhase(t, i, Unwinding)
      else ToPhase(t, i, Committing).(server := s.server.(offsets := s.server.offsets + s.requests[i].value))
    case Commit(i) => Committed(settings, s, i)
    case Unwind(i) => Moved(s, i, Ended(false, s.calls[i].tx)).(server := s.server.(open := false))
    case ProducePlain(records) =>
      if exists r :: r in records && !Fits(s.server.topics, settings, r) then s
      else s.(server := s.server.(topics := Appended(s.server.topics, settings, records).0), ledger := s.ledger + [Plain(records)])
    case MakeTopic(name, n) =>
      s.(server := s.server.(topics := Ensured(s.server.topics, name, n)), ledger := s.ledger + [Made(name, n)])
  }

  /** Everything lands together, or the append breaks off in the middle. */
  function Committed(settings: Settings, s: State, i: nat): State
    requires At(s, i, Committing) && settings.partitions > 0 && TopicsOk(s.server.topics)
  {
    var (topics, whole) := Appended(s.server.topics, settings, s.server.buffered);
    var server := s.server.(topics := topics, open := false);
    var tx := s.calls[i].tx.(fits := forall r :: r in s.server.buffered ==> Lands(s.server.topics, settings, r));
    if whole then
      Moved(s, i, Ended(true, tx)).(
        server := server.(committed := server.committed + server.offsets), ledger := s.ledger + [Done(i, s.server.buffered)])
    else Moved(s, i, Ended(false, tx)).(server := server)
  }

  // ------------------------------------------------------------- what holds

  /** `landed` lists exactly the sends that landed, each once. */
  ghost predicate TxOk(tx: Tx) {
    && (forall j :: 0 <= j < |tx.landed| ==> tx.landed[j] < |tx.sends| && tx.sends[tx.landed[j]].status == Landed)
    && (forall j, l :: 0 <= j < l < |tx.landed| ==> tx.landed[j] != tx.landed[l])
    && (forall k :: 0 <= k < |tx.sends| && tx.sends[k].status == Landed ==> k in tx.landed)
  }

  /** The records of the sends listed, one send after the other: what the broker buffers. */
  function Batch(sends: seq<Send>, landed: seq<nat>): seq<Record> {
    if landed == [] then []
    else
      var k := landed[|landed| - 1];
      Batch(sends, landed[..|landed| - 1]) + (if k < |sends| then sends[k].records else [])
  }

  ghost predicate CallOk(s: State, i: nat)
    requires i < |s.calls| == |s.requests|
  {
    match s.calls[i]
    case Running(phase, tx) =>
      && TxOk(tx) && Alone(s.calls, i)
      && (phase == Opening ==> tx == EMPTY && !s.server.open)
      && (phase != Opening ==> HandleOk(s.server, phase, tx, s.requests[i]) && OnTheWay(phase, tx, s.requests[i]))
    case Ended(committed, tx) => TxOk(tx) && AllSettled(tx) && (committed <==> Complete(tx, s.requests[i]) && tx.fits) && Preceded(s.calls, i)
    case Refused => s.closed
    case Queued => true
  }

  /** Everything a commit needs but the partitions: opened, resolved, every send landed, in time, and the offsets, if any, taken. */
  predicate Complete(tx: Tx, request: Option<Offsets>) {
    tx.begun && tx.resolved && AllLanded(tx) && tx.inTime && (request.Some? ==> tx.offsetsTaken)
  }

  /** What is known of an open transaction: on its way out it lacks something for good, and at its commit nothing. */
  predicate OnTheWay(phase: Phase, tx: Tx, request: Option<Offsets>) {
    && tx.begun
    && (phase == Calling ==> !tx.resolved)
    && (phase in {Offsetting, Committing} ==> tx.inTime) && (phase == Offsetting ==> request.Some?)
    && (phase == Committing ==> Complete(tx, request))
    && (phase == Unwinding ==> !tx.resolved || !AllOk(tx) || !tx.inTime || (request.Some? && !tx.offsetsTaken))
  }

  ghost predicate Preceded(calls: seq<Call>, i: nat) { forall j :: 0 <= j < i < |calls| ==> Settled(calls[j]) }

  /** Everyone before has settled, everyone behind still waits or was refused. */
  ghost predicate Alone(calls: seq<Call>, i: nat) {
    && Preceded(calls, i)
    && (forall j :: i < j < |calls| ==> calls[j].Queued? || calls[j].Refused?)
  }

  /** The open handle holds what this transaction landed, and its offsets once they were sent. */
  ghost predicate HandleOk(server: Server, phase: Phase, tx: Tx, request: Option<Offsets>) {
    && server.open && server.buffered == Batch(tx.sends, tx.landed)
    && (phase in {Offsetting, Committing} ==> AllLanded(tx))
    && (phase in {Draining, Offsetting, Committing} ==> tx.resolved)
    && server.offsets == (if phase == Committing && request.Some? then request.value else map[])
  }

  ghost predicate CallsOk(s: State) {
    && |s.calls| == |s.requests|
    && (forall i :: 0 <= i < |s.calls| ==> CallOk(s, i))
    && (s.server.open ==> exists i :: 0 <= i < |s.calls| && s.calls[i].Running?)
  }

  /** At most one transaction is between its begin and its end. */
  lemma OneAtATime(s: State, i: nat, j: nat)
    requires CallsOk(s) && i < |s.calls| && j < |s.calls| && s.calls[i].Running? && s.calls[j].Running?
    ensures i == j
  {
    assert CallOk(s, i) && CallOk(s, j);
  }

  lemma {:induction false} BatchGrows(sends: seq<Send>, more: seq<Send>, landed: seq<nat>)
    requires |sends| <= |more| && forall k :: 0 <= k < |sends| ==> more[k].records == sends[k].records
    requires forall j :: 0 <= j < |landed| ==> landed[j] < |sends|
    ensures Batch(more, landed) == Batch(sends, landed)
  {
    if landed != [] { BatchGrows(sends, more, landed[..|landed| - 1]); }
  }

  lemma BatchLands(sends: seq<Send>, landed: seq<nat>, k: nat)
    requires k < |sends|
    ensures Batch(sends, landed + [k]) == Batch(sends, landed) + sends[k].records
  {
    assert (landed + [k])[..|landed|] == landed;
  }

  // ------------------------------------------------------ what a step keeps

  /** One call moved on, and it is the only one that may be running. */
  lemma OneMoved(s: State, r: State, i: nat)
    requires CallsOk(s) && i < |s.calls| && |r.calls| == |s.calls| && r.requests == s.requests && r.closed == s.closed
    requires forall j :: 0 <= j < |s.calls| && j != i ==> r.calls[j] == s.calls[j]
    requires s.calls[i].Running? || (s.calls[i].Queued? && TurnCame(s.calls, i))
    requires CallOk(r, i) && (r.server.open ==> r.calls[i].Running?)
    ensures CallsOk(r)
  {
    TurnMeans(s.calls, i);
    assert CallOk(s, i);
    forall j | 0 <= j < |r.calls| ensures CallOk(r, j) {
      if j != i {
        assert CallOk(s, j);
        if s.calls[j].Running? { OneAtATimeOrWaits(s, i, j); }
      }
    }
    if r.server.open { assert r.calls[i].Running?; }
  }

  lemma OneAtATimeOrWaits(s: State, i: nat, j: nat)
    requires CallsOk(s) && i < |s.calls| && j < |s.calls| && s.calls[j].Running?
    requires s.calls[i].Running? || (s.calls[i].Queued? && TurnCame(s.calls, i))
    ensures i == j
  {
    TurnMeans(s.calls, i);
    assert CallOk(s, i) && CallOk(s, j);
  }

  /** Whoever's turn came finds no transaction open. */
  lemma NeverOpenAlready(s: State, i: nat)
    requires CallsOk(s) && i < |s.calls|
    requires At(s, i, Opening) || (s.calls[i].Queued? && TurnCame(s.calls, i))
    ensures !s.server.open
  {
    assert CallOk(s, i);
    if s.server.open {
      var j :| 0 <= j < |s.calls| && s.calls[j].Running?;
      OneAtATimeOrWaits(s, i, j);
    }
  }

  /** No send of a transaction that ended is left to reach the broker. */
  lemma NothingLate(s: State, i: nat, k: nat)
    requires CallsOk(s) && Sending(s, i, k)
    ensures s.calls[i].Running? && s.calls[i].phase in {Calling, Draining, Unwinding}
  {
    assert CallOk(s, i);
  }

  lemma AskKeeps(settings: Settings, s: State, step: Step)
    requires CallsOk(s) && step.Ask? && settings.partitions > 0 && TopicsOk(s.server.topics)
    ensures CallsOk(Next(settings, s, step))
  {
    var r := Next(settings, s, step);
    forall j | 0 <= j < |r.calls| ensures CallOk(r, j) {
      if j < |s.calls| { assert CallOk(s, j); }
    }
    if r.server.open {
      var i :| 0 <= i < |s.calls| && s.calls[i].Running?;
      assert r.calls[i].Running?;
    }
  }

  lemma CloseKeeps(settings: Settings, s: State, step: Step)
    requires CallsOk(s) && step.Close? && Can(s, step) && settings.partitions > 0 && TopicsOk(s.server.topics)
    ensures CallsOk(Next(settings, s, step))
  {
    var r := Next(settings, s, step);
    forall j | 0 <= j < |r.calls| ensures CallOk(r, j) { assert CallOk(s, j); }
    if r.server.open {
      var i :| 0 <= i < |s.calls| && s.calls[i].Running?;
      assert r.calls[i].Running?;
    }
  }

  lemma OpeningKeeps(settings: Settings, s: State, step: Step)
    requires CallsOk(s) && (step.Begin? || step.Open?) && Can(s, step) && settings.partitions > 0 && TopicsOk(s.server.topics)
    ensures CallsOk(Next(settings, s, step))
  {
    var r := Next(settings, s, step);
    TurnMeans(s.calls, step.i);
    NeverOpenAlready(s, step.i);
    assert CallOk(s, step.i);
    forall j | step.i < j < |s.calls| ensures s.calls[j].Queued? || s.calls[j].Refused? {
      assert CallOk(s, j);
    }
    OneMoved(s, r, step.i);
  }

  lemma SendKeeps(settings: Settings, s: State, i: nat, records: seq<Record>)
    requires CallsOk(s) && i < |s.calls| && settings.partitions > 0 && TopicsOk(s.server.topics)
    ensures CallsOk(Next(settings, s, Produce(i, records)))
  {
    var r := Next(settings, s, Produce(i, records));
    if At(s, i, Calling) && !s.closed {
      assert CallOk(s, i);
      var tx := s.calls[i].tx;
      BatchGrows(tx.sends, r.calls[i].tx.sends, tx.landed);
      OneMoved(s, r, i);
    }
  }

  /** A send that settled, one way or the other. */
  lemma SettlingTx(tx: Tx, k: nat, status: SendStatus)
    requires TxOk(tx) && k < |tx.sends| && tx.sends[k].status == Pending && status != Pending
    ensures var tx' := Settling(tx, k, status);
            TxOk(tx') && Batch(tx'.sends, tx'.landed) == Batch(tx.sends, tx.landed) + (if status == Landed then tx.sends[k].records else [])
  {
    var sends := tx.sends[k := tx.sends[k].(status := status)];
    BatchGrows(tx.sends, sends, tx.landed);
    if status == Landed { BatchLands(sends, tx.landed, k); }
    SettlingLists(tx, k, status);
  }

  lemma SettlingLists(tx: Tx, k: nat, status: SendStatus)
    requires TxOk(tx) && k < |tx.sends| && tx.sends[k].status == Pending && status != Pending
    ensures TxOk(Settling(tx, k, status))
  {
    var tx' := Settling(tx, k, status);
    forall x | 0 <= x < |tx'.sends| && tx'.sends[x].status == Landed ensures x in tx'.landed {
      if x != k { assert tx.sends[x].status == Landed; }
    }
  }

  /** A send that failed stays failed. */
  lemma SettlingFails(tx: Tx, k: nat, status: SendStatus)
    requires k < |tx.sends| && tx.sends[k].status == Pending && !AllOk(tx)
    ensures !AllOk(Settling(tx, k, status))
  {
    var j :| 0 <= j < |tx.sends| && tx.sends[j].status == Failed;
    assert Settling(tx, k, status).sends[j].status == Failed;
  }

  /** The state after a send settled: what landed is buffered. */
  function AfterSend(s: State, i: nat, k: nat, status: SendStatus): State
    requires Sending(s, i, k)
  {
    var more := if status == Landed then s.calls[i].tx.sends[k].records else [];
    WithSend(s, i, k, status).(server := s.server.(buffered := s.server.buffered + more))
  }

  lemma AloneStays(calls: seq<Call>, i: nat, c: Call)
    requires i < |calls| && Alone(calls, i)
    ensures Alone(calls[i := c], i)
  {
  }

  lemma AfterSendOk(s: State, i: nat, k: nat, status: SendStatus)
    requires CallsOk(s) && Sending(s, i, k) && status != Pending
    ensures s.calls[i].Running? && CallOk(AfterSend(s, i, k, status), i)
  {
    NothingLate(s, i, k);
    assert CallOk(s, i);
    var tx, r := s.calls[i].tx, AfterSend(s, i, k, status);
    SettlingTx(tx, k, status);
    assert TxOk(r.calls[i].tx);
    AloneStays(s.calls, i, r.calls[i]);
    if !AllOk(tx) { SettlingFails(tx, k, status); }
    assert HandleOk(r.server, s.calls[i].phase, r.calls[i].tx, s.requests[i]);
  }

  lemma SettleKeeps(settings: Settings, s: State, step: Step)
    requires CallsOk(s) && (step.Land? || step.Fail?) && Can(s, step) && settings.partitions > 0 && TopicsOk(s.server.topics)
    ensures CallsOk(Next(settings, s, step))
  {
    var i, k, r := step.i, step.k, Next(settings, s, step);
    NothingLate(s, i, k);
    var status := if r == WithSend(s, i, k, Failed) then Failed else Landed;
    assert s.server.buffered + [] == s.server.buffered;
    assert r == AfterSend(s, i, k, status);
    AfterSendOk(s, i, k, status);
    OneMoved(s, r, i);
  }

  lemma PhaseKeeps(settings: Settings, s: State, step: Step)
    requires CallsOk(s) && Can(s, step) && settings.partitions > 0 && TopicsOk(s.server.topics)
    requires step.Return? || step.Throw? || step.Drain?
    ensures CallsOk(Next(settings, s, step))
  {
    assert CallOk(s, step.i);
    OneMoved(s, Next(settings, s, step), step.i);
  }

  lemma OffsetsKeep(settings: Settings, s: State, i: nat, accepted: bool)
    requires CallsOk(s) && At(s, i, Offsetting) && settings.partitions > 0 && TopicsOk(s.server.topics)
    ensures CallsOk(Next(settings, s, SendOffsets(i, accepted)))
  {
    assert CallOk(s, i);
    OneMoved(s, Next(settings, s, SendOffsets(i, accepted)), i);
  }

  lemma UnwindKeeps(settings: Settings, s: State, i: nat)
    requires CallsOk(s) && Can(s, Unwind(i)) && settings.partitions > 0 && TopicsOk(s.server.topics)
    ensures CallsOk(Next(settings, s, Unwind(i)))
  {
    assert CallOk(s, i);
    OneMoved(s, Next(settings, s, Unwind(i)), i);
  }

  lemma CommitKeeps(settings: Settings, s: State, i: nat)
    requires CallsOk(s) && At(s, i, Committing) && settings.partitions > 0 && TopicsOk(s.server.topics)
    ensures CallsOk(Committed(settings, s, i))
  {
    assert CallOk(s, i);
    AppendsToTheEnd(s.server.topics, settings, s.server.buffered);
    OneMoved(s, Committed(settings, s, i), i);
  }

  lemma OthersKeep(settings: Settings, s: State, step: Step)
    requires CallsOk(s) && Can(s, step) && settings.partitions > 0 && TopicsOk(s.server.topics)
    requires step.ProducePlain? || step.MakeTopic?
    ensures CallsOk(Next(settings, s, step))
  {
    var r := Next(settings, s, step);
    forall j | 0 <= j < |r.calls| ensures CallOk(r, j) { assert CallOk(s, j); }
  }

  /** The turns, the handles and the sends stay as they should, whatever happens. */
  lemma StepKeepsCalls(settings: Settings, s: State, step: Step)
    requires CallsOk(s) && Can(s, step) && settings.partitions > 0 && TopicsOk(s.server.topics)
    ensures CallsOk(Next(settings, s, step))
  {
    match step
    case Ask(_, _) => AskKeeps(settings, s, step);
    case Close(_) => CloseKeeps(settings, s, step);
    case Begin(_) | Open(_, _) => OpeningKeeps(settings, s, step);
    case Produce(i, records) => SendKeeps(settings, s, i, records);
    case Land(_, _) | Fail(_, _) => SettleKeeps(settings, s, step);
    case SendOffsets(i, accepted) => OffsetsKeep(settings, s, i, accepted);
    case Unwind(i) => UnwindKeeps(settings, s, i);
    case Commit(i) => CommitKeeps(settings, s, i);
    case ProducePlain(_) | MakeTopic(_, _) => OthersKeep(settings, s, step);
    case _ => PhaseKeeps(settings, s, step);
  }

  // -------------------------------------------------------- what a send becomes

  /** A send the function begins while the harbor is open is part of its transaction; any other is refused. */
  lemma ProduceExactly(settings: Settings, s: State, i: nat, records: seq<Record>)
    requires CallsOk(s) && i < |s.calls| && settings.partitions > 0 && TopicsOk(s.server.topics)
    ensures var r := Next(settings, s, Produce(i, records));
            if At(s, i, Calling) && !s.closed
            then At(r, i, Calling) && r.calls[i].tx.sends == s.calls[i].tx.sends + [Send(records, Pending)]
            else r == s
  {
  }

  /** A send that reaches the broker lands if and only if every record of it fits: its topic may exist and its partition does. */
  lemma LandExactly(settings: Settings, s: State, i: nat, k: nat)
    requires CallsOk(s) && Can(s, Land(i, k)) && settings.partitions > 0 && TopicsOk(s.server.topics)
    ensures var r, records := Next(settings, s, Land(i, k)), s.calls[i].tx.sends[k].records;
            && r.calls[i].Running? && |r.calls[i].tx.sends| == |s.calls[i].tx.sends|
            && (r.calls[i].tx.sends[k].status == Landed <==>
                  forall x :: x in records ==>
                    && x.topic != "" && (settings.autoCreate || x.topic in s.server.topics)
                    && (x.partition.Some? ==> 0 <= x.partition.value < Count(s.server.topics, settings, x.topic)))
            && r.server.buffered == s.server.buffered + (if r.calls[i].tx.sends[k].status == Landed then records else [])
  {
    NothingLate(s, i, k);
  }
}
