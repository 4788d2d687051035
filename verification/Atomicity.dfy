/** What a transaction leaves behind: all of it or nothing, in the order the calls were made. */
module Atomicity {
  import opened Basics
  import opened Broker
  import opened Transactions

  // ----------------------------------------------------------- what is written

  function Written(ledger: seq<Entry>, name: string): seq<Record> {
    if ledger == [] then []
    else
      var e := ledger[|ledger| - 1];
      Written(ledger[..|ledger| - 1], name) + (if e.Made? then [] else For(e.records, name))
  }

  function Sent(ledger: seq<Entry>, requests: seq<Option<Offsets>>): Offsets {
    if ledger == [] then map[]
    else
      var e := ledger[|ledger| - 1];
      Sent(ledger[..|ledger| - 1], requests) +
        (if e.Done? && e.call < |requests| && requests[e.call].Some? then requests[e.call].value else map[])
  }

  lemma WrittenNext(ledger: seq<Entry>, e: Entry, name: string, requests: seq<Option<Offsets>>)
    ensures Written(ledger + [e], name) == Written(ledger, name) + (if e.Made? then [] else For(e.records, name))
    ensures Sent(ledger + [e], requests) == Sent(ledger, requests) +
              (if e.Done? && e.call < |requests| && requests[e.call].Some? then requests[e.call].value else map[])
  {
    assert (ledger + [e])[..|ledger|] == ledger;
  }

  lemma {:induction false} SentStays(ledger: seq<Entry>, requests: seq<Option<Offsets>>, more: seq<Option<Offsets>>)
    requires forall x :: 0 <= x < |ledger| && ledger[x].Done? ==> ledger[x].call < |requests|
    ensures Sent(ledger, requests + more) == Sent(ledger, requests)
  {
    if ledger != [] {
      SentStays(ledger[..|ledger| - 1], requests, more);
      assert ledger[|ledger| - 1].Done? ==> ledger[|ledger| - 1].call < |requests|;
    }
  }

  // ------------------------------------------------------------- what holds

  /** The entry of a committed transaction holds exactly its landed sends, and all its sends landed. */
  ghost predicate EntryOk(s: State, e: Entry) {
    e.Done? ==>
      && e.call < |s.calls| && s.calls[e.call].Ended? && s.calls[e.call].committed
      && e.records == Batch(s.calls[e.call].tx.sends, s.calls[e.call].tx.landed)
  }

  ghost predicate LedgerOk(s: State) {
    && (forall x :: 0 <= x < |s.ledger| ==> EntryOk(s, s.ledger[x]))
    && (forall x, y :: 0 <= x < y < |s.ledger| && s.ledger[x].Done? && s.ledger[y].Done? ==> s.ledger[x].call < s.ledger[y].call)
    && (forall i :: 0 <= i < |s.calls| && s.calls[i].Ended? && s.calls[i].committed ==> Listed(s.ledger, i))
  }

  ghost predicate Listed(ledger: seq<Entry>, i: nat) { exists x :: 0 <= x < |ledger| && ledger[x].Done? && ledger[x].call == i }

  ghost predicate LogsOk(s: State) {
    && (forall name :: History(s.server.topics, name) == Written(s.ledger, name))
    && s.server.committed == Sent(s.ledger, s.requests)
  }

  ghost predicate Valid(settings: Settings, s: State) {
    settings.partitions > 0 && TopicsOk(s.server.topics) && CallsOk(s) && LedgerOk(s) && LogsOk(s)
  }

  /** The records a commit is about to append all land, or the first of them does not. */
  ghost predicate NotHalf(settings: Settings, s: State) {
    var buffered := s.server.buffered;
    (forall r :: r in buffered ==> Lands(s.server.topics, settings, r)) || (buffered != [] && !Lands(s.server.topics, settings, buffered[0]))
  }

  /** No commit breaks off half-way. */
  ghost predicate Clean(settings: Settings, s: State, step: Step) { step.Commit? ==> NotHalf(settings, s) }

  // ------------------------------------------------------ what a step keeps

  /** Steps that write nothing. */
  lemma QuietKeeps(settings: Settings, s: State, r: State)
    requires Valid(settings, s) && CallsOk(r) && r.ledger == s.ledger
    requires r.server.topics == s.server.topics && r.server.committed == s.server.committed
    requires |s.calls| <= |r.calls| && s.requests <= r.requests
    requires forall i :: 0 <= i < |s.calls| && s.calls[i].Ended? ==> r.calls[i] == s.calls[i]
    requires forall i :: 0 <= i < |r.calls| && r.calls[i].Ended? && r.calls[i].committed ==> i < |s.calls| && s.calls[i].Ended?
    ensures Valid(settings, r)
  {
    forall x | 0 <= x < |r.ledger| ensures EntryOk(r, r.ledger[x]) { assert EntryOk(s, s.ledger[x]); }
    SentStays(s.ledger, s.requests, r.requests[|s.requests|..]);
    assert s.requests + r.requests[|s.requests|..] == r.requests;
  }

  lemma SendingKeeps(settings: Settings, s: State, step: Step)
    requires Valid(settings, s) && Can(s, step) && (step.Land? || step.Fail?)
    ensures Valid(settings, Next(settings, s, step))
  {
    StepKeepsCalls(settings, s, step);
    NothingLate(s, step.i, step.k);
    QuietKeeps(settings, s, Next(settings, s, step));
  }

  lemma QuietStepKeeps(settings: Settings, s: State, step: Step)
    requires Valid(settings, s) && Can(s, step)
    requires !step.Land? && !step.Fail? && !step.Commit? && !step.ProducePlain? && !step.MakeTopic?
    ensures Valid(settings, Next(settings, s, step))
  {
    StepKeepsCalls(settings, s, step);
    QuietKeeps(settings, s, Next(settings, s, step));
  }

  lemma PlainLogs(settings: Settings, s: State, records: seq<Record>)
    requires Valid(settings, s) && forall r :: r in records ==> Fits(s.server.topics, settings, r)
    ensures LogsOk(Next(settings, s, ProducePlain(records)))
  {
    var r := Next(settings, s, ProducePlain(records));
    AppendsToTheEnd(s.server.topics, settings, records);
    forall name ensures History(r.server.topics, name) == Written(r.ledger, name) {
      AppendsInOrder(s.server.topics, settings, records, name);
      WrittenNext(s.ledger, Plain(records), name, s.requests);
    }
    WrittenNext(s.ledger, Plain(records), "", s.requests);
  }

  lemma PlainKeeps(settings: Settings, s: State, records: seq<Record>)
    requires Valid(settings, s) && forall r :: r in records ==> Fits(s.server.topics, settings, r)
    ensures Valid(settings, Next(settings, s, ProducePlain(records)))
  {
    StepKeepsCalls(settings, s, ProducePlain(records));
    PlainLogs(settings, s, records);
    EntriesStay(s, Next(settings, s, ProducePlain(records)), Plain(records));
  }

  lemma EntriesStay(s: State, r: State, e: Entry)
    requires LedgerOk(s) && r.calls == s.calls && r.ledger == s.ledger + [e] && !e.Done?
    ensures LedgerOk(r)
  {
    forall x | 0 <= x < |r.ledger| ensures EntryOk(r, r.ledger[x]) { if x < |s.ledger| { assert EntryOk(s, s.ledger[x]); } }
    forall i | 0 <= i < |r.calls| && r.calls[i].Ended? && r.calls[i].committed ensures Listed(r.ledger, i) {
      assert Listed(s.ledger, i);
      var x :| 0 <= x < |s.ledger| && s.ledger[x].Done? && s.ledger[x].call == i;
      assert r.ledger[x] == s.ledger[x];
    }
  }

  lemma MakeKeeps(settings: Settings, s: State, name: string, n: nat)
    requires Valid(settings, s) && n > 0
    ensures Valid(settings, Next(settings, s, MakeTopic(name, n)))
  {
    StepKeepsCalls(settings, s, MakeTopic(name, n));
    MadeLogs(settings, s, name, n);
    EntriesStay(s, Next(settings, s, MakeTopic(name, n)), Made(name, n));
  }

  lemma MadeLogs(settings: Settings, s: State, name: string, n: nat)
    requires Valid(settings, s) && n > 0
    ensures LogsOk(Next(settings, s, MakeTopic(name, n)))
  {
    var r := Next(settings, s, MakeTopic(name, n));
    forall x ensures History(r.server.topics, x) == Written(r.ledger, x) { WrittenNext(s.ledger, Made(name, n), x, s.requests); }
    WrittenNext(s.ledger, Made(name, n), "", s.requests);
  }

  /** A commit takes effect exactly when every partition its records name still exists. */
  lemma CommitsWhole(settings: Settings, s: State, i: nat)
    requires settings.partitions > 0 && TopicsOk(s.server.topics) && At(s, i, Committing)
    ensures var r := Committed(settings, s, i);
            && r.calls[i].Ended?
            && (r.calls[i].committed <==> forall x :: x in s.server.buffered ==> Lands(s.server.topics, settings, x))
            && (r.calls[i].committed ==> r.ledger == s.ledger + [Done(i, s.server.buffered)])
  {
    AppendsToTheEnd(s.server.topics, settings, s.server.buffered);
  }

  lemma CommitLogs(settings: Settings, s: State, i: nat)
    requires Valid(settings, s) && At(s, i, Committing) && Committed(settings, s, i).calls[i].committed
    ensures LogsOk(Committed(settings, s, i)) && Committed(settings, s, i).calls[i] == Ended(true, s.calls[i].tx.(fits := true))
  {
    assert CallOk(s, i);
    CommitsWhole(settings, s, i);
    AppendsToTheEnd(s.server.topics, settings, s.server.buffered);
    var r, e := Committed(settings, s, i), Done(i, s.server.buffered);
    forall name ensures History(r.server.topics, name) == Written(r.ledger, name) {
      AppendsInOrder(s.server.topics, settings, s.server.buffered, name);
      WrittenNext(s.ledger, e, name, s.requests);
    }
    WrittenNext(s.ledger, e, "", s.requests);
  }

  lemma CommitEntries(settings: Settings, s: State, i: nat)
    requires Valid(settings, s) && At(s, i, Committing)
    requires Committed(settings, s, i).calls[i] == Ended(true, s.calls[i].tx.(fits := true))
    requires Committed(settings, s, i).ledger == s.ledger + [Done(i, s.server.buffered)]
    ensures var r := Committed(settings, s, i); forall x :: 0 <= x < |r.ledger| ==> EntryOk(r, r.ledger[x])
  {
    var r := Committed(settings, s, i);
    assert CallOk(s, i);
    forall x | 0 <= x < |r.ledger| ensures EntryOk(r, r.ledger[x]) { if x < |s.ledger| { assert EntryOk(s, s.ledger[x]); } }
  }

  lemma CommitListed(settings: Settings, s: State, i: nat, j: nat)
    requires Valid(settings, s) && At(s, i, Committing)
    requires Committed(settings, s, i).calls[i] == Ended(true, s.calls[i].tx.(fits := true))
    requires Committed(settings, s, i).ledger == s.ledger + [Done(i, s.server.buffered)]
    requires var r := Committed(settings, s, i); j < |r.calls| && r.calls[j].Ended? && r.calls[j].committed
    ensures Listed(Committed(settings, s, i).ledger, j)
  {
    var r := Committed(settings, s, i);
    if j == i {
      assert r.ledger[|s.ledger|].call == i;
    } else {
      assert Listed(s.ledger, j);
      var x :| 0 <= x < |s.ledger| && s.ledger[x].Done? && s.ledger[x].call == j;
      assert r.ledger[x] == s.ledger[x];
    }
  }

  /** Every call listed is one before: its entry comes last. */
  lemma CommitsLast(settings: Settings, s: State, i: nat)
    requires Valid(settings, s) && At(s, i, Committing)
    ensures forall x :: 0 <= x < |s.ledger| && s.ledger[x].Done? ==> s.ledger[x].call < i
  {
    assert CallOk(s, i);
    forall x | 0 <= x < |s.ledger| && s.ledger[x].Done? ensures s.ledger[x].call < i { assert EntryOk(s, s.ledger[x]); }
  }

  lemma CommitLedger(settings: Settings, s: State, i: nat)
    requires Valid(settings, s) && At(s, i, Committing)
    requires Committed(settings, s, i).calls[i] == Ended(true, s.calls[i].tx.(fits := true))
    requires Committed(settings, s, i).ledger == s.ledger + [Done(i, s.server.buffered)]
    ensures LedgerOk(Committed(settings, s, i))
  {
    var r := Committed(settings, s, i);
    CommitEntries(settings, s, i);
    CommitsLast(settings, s, i);
    forall j | 0 <= j < |r.calls| && r.calls[j].Ended? && r.calls[j].committed ensures Listed(r.ledger, j) {
      CommitListed(settings, s, i, j);
    }
    LedgerGrows(s, r, Done(i, s.server.buffered));
  }

  lemma LedgerGrows(s: State, r: State, e: Entry)
    requires LedgerOk(s) && e.Done? && r.ledger == s.ledger + [e]
    requires forall x :: 0 <= x < |r.ledger| ==> EntryOk(r, r.ledger[x])
    requires forall x :: 0 <= x < |s.ledger| && s.ledger[x].Done? ==> s.ledger[x].call < e.call
    requires forall j :: 0 <= j < |r.calls| && r.calls[j].Ended? && r.calls[j].committed ==> Listed(r.ledger, j)
    ensures LedgerOk(r)
  {
  }

  /** A commit whose first record does not land writes nothing. */
  lemma CommitNothing(settings: Settings, s: State, i: nat)
    requires Valid(settings, s) && At(s, i, Committing)
    requires s.server.buffered != [] && !Lands(s.server.topics, settings, s.server.buffered[0])
    ensures Valid(settings, Committed(settings, s, i)) && !Committed(settings, s, i).calls[i].committed
  {
    var r := Committed(settings, s, i);
    CommitKeeps(settings, s, i);
    forall x | 0 <= x < |r.ledger| ensures EntryOk(r, r.ledger[x]) { assert EntryOk(s, s.ledger[x]); assert s.ledger[x].Done? ==> s.ledger[x].call != i; }
    forall name ensures History(r.server.topics, name) == History(s.server.topics, name) {}
  }

  lemma CommitValid(settings: Settings, s: State, i: nat)
    requires Valid(settings, s) && At(s, i, Committing) && NotHalf(settings, s)
    ensures Valid(settings, Committed(settings, s, i))
  {
    CommitKeeps(settings, s, i);
    CommitsWhole(settings, s, i);
    if Committed(settings, s, i).calls[i].committed {
      CommitLogs(settings, s, i);
      CommitLedger(settings, s, i);
    } else {
      CommitNothing(settings, s, i);
    }
  }

  /** An append only adds, and one whose first record lands adds that. */
  lemma {:induction false} AppendAdds(topics: Topics, settings: Settings, records: seq<Record>, name: string)
    requires TopicsOk(topics) && settings.partitions > 0
    ensures |History(Appended(topics, settings, records).0, name)| >= |History(topics, name)|
    ensures records != [] && Lands(topics, settings, records[0]) && records[0].topic == name ==>
            |History(Appended(topics, settings, records).0, name)| > |History(topics, name)|
    decreases |records|
  {
    if records != [] && Lands(topics, settings, records[0]) {
      OneGrows(topics, settings, records[0], name);
      AppendAdds(AppendedOne(topics, settings, records[0]), settings, records[1..], name);
    }
  }

  /** Nothing was added to any topic. */
  ghost predicate Untouched(s: State, r: State) { forall name :: History(r.server.topics, name) == History(s.server.topics, name) }

  /** A commit is all or nothing exactly when all its records land or the first one does not. */
  lemma AllOrNothingExactly(settings: Settings, s: State, i: nat)
    requires settings.partitions > 0 && TopicsOk(s.server.topics) && At(s, i, Committing)
    ensures var r := Committed(settings, s, i); (r.calls[i].committed || Untouched(s, r)) <==> NotHalf(settings, s)
  {
    var r, buffered := Committed(settings, s, i), s.server.buffered;
    CommitsWhole(settings, s, i);
    if buffered != [] && Lands(s.server.topics, settings, buffered[0]) {
      AppendAdds(s.server.topics, settings, buffered, buffered[0].topic);
    } else {
      forall name ensures History(r.server.topics, name) == History(s.server.topics, name) {}
    }
  }

  /** Every step keeps the books, but for a commit that breaks off half-way, and that one never does. */
  lemma StepExactly(settings: Settings, s: State, step: Step)
    requires Valid(settings, s) && Can(s, step)
    ensures Valid(settings, Next(settings, s, step)) <==> Clean(settings, s, step)
  {
    if Clean(settings, s, step) {
      StepKeeps(settings, s, step);
    } else {
      HalfUnbalances(settings, s, step.i);
    }
  }

  lemma HalfUnbalances(settings: Settings, s: State, i: nat)
    requires Valid(settings, s) && At(s, i, Committing) && !NotHalf(settings, s)
    ensures !LogsOk(Committed(settings, s, i))
  {
    var name := s.server.buffered[0].topic;
    CommitsWhole(settings, s, i);
    AppendAdds(s.server.topics, settings, s.server.buffered, name);
    assert History(s.server.topics, name) == Written(s.ledger, name);
  }

  lemma StepKeeps(settings: Settings, s: State, step: Step)
    requires Valid(settings, s) && Can(s, step) && Clean(settings, s, step)
    ensures Valid(settings, Next(settings, s, step))
  {
    match step
    case Land(_, _) | Fail(_, _) => SendingKeeps(settings, s, step);
    case Commit(i) => CommitValid(settings, s, i);
    case ProducePlain(records) =>
      if forall r :: r in records ==> Fits(s.server.topics, settings, r) { PlainKeeps(settings, s, records); }
    case MakeTopic(name, n) => MakeKeeps(settings, s, name, n);
    case _ => QuietStepKeeps(settings, s, step);
  }

  // ------------------------------------------------------ what is enough for that

  /** What an open transaction buffered lands. */
  ghost predicate BufferOk(settings: Settings, s: State) {
    s.server.open ==> forall r :: r in s.server.buffered ==> Lands(s.server.topics, settings, r)
  }

  /** No topic is made by hand with fewer partitions than one made on demand gets. */
  predicate Roomy(settings: Settings, s: State, step: Step) {
    step.MakeTopic? ==> step.name in s.server.topics || step.partitions >= settings.partitions
  }

  lemma PlainBuffer(settings: Settings, s: State, records: seq<Record>)
    requires Valid(settings, s) && BufferOk(settings, s) && forall r :: r in records ==> Fits(s.server.topics, settings, r)
    ensures BufferOk(settings, Next(settings, s, ProducePlain(records)))
  {
    forall x | x in s.server.buffered && s.server.open
      ensures Lands(Appended(s.server.topics, settings, records).0, settings, x)
    {
      AppendKeepsCounts(s.server.topics, settings, records, x.topic);
    }
  }

  /** Where no topic is made too small, every commit finds its partitions. */
  lemma RoomyKeeps(settings: Settings, s: State, step: Step)
    requires Valid(settings, s) && BufferOk(settings, s) && Can(s, step) && Roomy(settings, s, step)
    ensures Clean(settings, s, step) && BufferOk(settings, Next(settings, s, step))
  {
    match step
    case Commit(i) => assert CallOk(s, i);
    case Land(i, k) => NothingLate(s, i, k);
    case ProducePlain(records) =>
      if forall r :: r in records ==> Fits(s.server.topics, settings, r) { PlainBuffer(settings, s, records); }
    case _ =>
  }

  // ------------------------------------------------------------- whole runs

  function Initial(): State { State([], [], false, Server(map[], map[], false, [], map[]), []) }

  ghost predicate Playable(settings: Settings, s: State, steps: seq<Step>)
    requires Valid(settings, s)
    decreases |steps|
  {
    || steps == []
    || (Can(s, steps[0]) && Clean(settings, s, steps[0])
        && (StepKeeps(settings, s, steps[0]); Playable(settings, Next(settings, s, steps[0]), steps[1..])))
  }

  ghost function Play(settings: Settings, s: State, steps: seq<Step>): (r: State)
    requires Valid(settings, s) && Playable(settings, s, steps)
    ensures Valid(settings, r)
    decreases |steps|
  {
    if steps == [] then s
    else
      StepKeeps(settings, s, steps[0]);
      Play(settings, Next(settings, s, steps[0]), steps[1..])
  }

  /**
   * However calls, sends, shutdown and other producers interleave: each
   * topic's log is the plain produces and the committed transactions, whole
   * and in order; the committed offsets are those transactions'; one that
   * committed had its function resolve and every send land; and nothing of
   * any other is there.
   */
  lemma AllOrNothing(settings: Settings, steps: seq<Step>, name: string, i: nat)
    requires settings.partitions > 0 && Valid(settings, Initial()) && Playable(settings, Initial(), steps)
    requires i < |Play(settings, Initial(), steps).calls|
    ensures var r := Play(settings, Initial(), steps); var c := r.calls[i];
            && History(r.server.topics, name) == Written(r.ledger, name) && r.server.committed == Sent(r.ledger, r.requests)
            && (Listed(r.ledger, i) <==> c.Ended? && c.committed)
            && (c.Ended? && c.committed ==>
                 c.tx.resolved && AllLanded(c.tx) && TxOk(c.tx) && Done(i, Batch(c.tx.sends, c.tx.landed)) in r.ledger)
  {
    var r := Play(settings, Initial(), steps);
    assert CallOk(r, i);
    if Listed(r.ledger, i) {
      var x :| 0 <= x < |r.ledger| && r.ledger[x].Done? && r.ledger[x].call == i;
      assert EntryOk(r, r.ledger[x]);
      assert r.ledger[x] == Done(i, Batch(r.calls[i].tx.sends, r.calls[i].tx.landed));
    }
  }

  // --------------------------------------------- whole runs, whatever they do

  ghost predicate Sane(settings: Settings, s: State) { settings.partitions > 0 && TopicsOk(s.server.topics) && CallsOk(s) }

  lemma StaysSane(settings: Settings, s: State, step: Step)
    requires Sane(settings, s) && Can(s, step)
    ensures Sane(settings, Next(settings, s, step))
  {
    StepKeepsCalls(settings, s, step);
  }

  ghost predicate Runs(settings: Settings, s: State, steps: seq<Step>)
    requires Sane(settings, s)
    decreases |steps|
  {
    steps == [] || (Can(s, steps[0]) && (StaysSane(settings, s, steps[0]); Runs(settings, Next(settings, s, steps[0]), steps[1..])))
  }

  ghost function Final(settings: Settings, s: State, steps: seq<Step>): (r: State)
    requires Sane(settings, s) && Runs(settings, s, steps)
    ensures Sane(settings, r)
    decreases |steps|
  {
    if steps == [] then s
    else
      StaysSane(settings, s, steps[0]);
      Final(settings, Next(settings, s, steps[0]), steps[1..])
  }

  /** In any run, everything on every topic is where its partition, its key or its turn puts it. */
  lemma {:induction false} AlwaysPlaced(settings: Settings, s: State, steps: seq<Step>)
    requires Sane(settings, s) && Runs(settings, s, steps) && AllPlaced(s.server.topics, settings)
    ensures AllPlaced(Final(settings, s, steps).server.topics, settings)
    decreases |steps|
  {
    if steps != [] {
      StaysSane(settings, s, steps[0]);
      StepPlaces(settings, s, steps[0]);
      AlwaysPlaced(settings, Next(settings, s, steps[0]), steps[1..]);
    }
  }

  lemma StepPlaces(settings: Settings, s: State, step: Step)
    requires Sane(settings, s) && Can(s, step) && AllPlaced(s.server.topics, settings)
    ensures AllPlaced(Next(settings, s, step).server.topics, settings)
  {
    match step
    case Commit(i) => AppendPlaces(s.server.topics, settings, s.server.buffered);
    case ProducePlain(records) => AppendPlaces(s.server.topics, settings, records);
    case MakeTopic(name, n) => assert AllPlaced(Ensured(s.server.topics, name, n), settings);
    case _ =>
  }

  /** In any run, transactions take effect in the order their calls were made, one at a time, whichever of them were refused in between. */
  lemma InCallOrder(settings: Settings, steps: seq<Step>, i: nat, j: nat)
    requires Sane(settings, Initial()) && Runs(settings, Initial(), steps)
    requires var r := Final(settings, Initial(), steps); i < j < |r.calls| && (r.calls[j].Running? || r.calls[j].Ended?)
    ensures Settled(Final(settings, Initial(), steps).calls[i])
  {
    assert CallOk(Final(settings, Initial(), steps), j);
  }

  /**
   * In any run, a call that ended committed if and only if the broker opened
   * its transaction, its function resolved, every send it began landed, the
   * harbor was open when they had settled, its offsets, if it has any, were
   * taken, and every partition its records name was still there.
   */
  lemma CommitsExactly(settings: Settings, steps: seq<Step>, i: nat)
    requires Sane(settings, Initial()) && Runs(settings, Initial(), steps)
    requires i < |Final(settings, Initial(), steps).calls| && Final(settings, Initial(), steps).calls[i].Ended?
    ensures var r := Final(settings, Initial(), steps);
            var tx := r.calls[i].tx;
            && |r.requests| == |r.calls| && AllSettled(tx)
            && (r.calls[i].committed <==>
                  && tx.begun && tx.resolved && (forall k :: 0 <= k < |tx.sends| ==> tx.sends[k].status == Landed)
                  && tx.inTime && (r.requests[i].Some? ==> tx.offsetsTaken) && tx.fits)
  {
    assert CallOk(Final(settings, Initial(), steps), i);
  }

  /** And only a harbor that closed refuses a call that waits. */
  lemma RefusedOnlyClosed(settings: Settings, steps: seq<Step>, i: nat)
    requires Sane(settings, Initial()) && Runs(settings, Initial(), steps)
    requires i < |Final(settings, Initial(), steps).calls| && Final(settings, Initial(), steps).calls[i].Refused?
    ensures Final(settings, Initial(), steps).closed
  {
    assert CallOk(Final(settings, Initial(), steps), i);
  }

  // -------------------------------------------------- a transaction goes through

  /** The call `i` of `s`, further on, with its transaction open. */
  function Further(s: State, i: nat, phase: Phase, tx: Tx, buffered: seq<Record>, offsets: Offsets): State
    requires i < |s.calls|
  {
    s.(calls := s.calls[i := Running(phase, tx)], server := s.server.(open := true, buffered := buffered, offsets := offsets))
  }

  lemma RunsFirst(settings: Settings, s: State, step: Step, t: State, rest: seq<Step>)
    requires Sane(settings, s) && Can(s, step) && Next(settings, s, step) == t
    requires Sane(settings, t) ==> Runs(settings, t, rest)
    ensures Sane(settings, t) && Runs(settings, s, [step] + rest) && Final(settings, s, [step] + rest) == Final(settings, t, rest)
  {
    StaysSane(settings, s, step);
    assert ([step] + rest)[0] == step && ([step] + rest)[1..] == rest;
  }

  /** What it ends with: its records behind what was there, its offsets over what was committed. */
  ghost predicate WentThrough(settings: Settings, s: State, i: nat, records: seq<Record>, r: State) {
    && i < |s.calls| == |r.calls| && r.calls[i].Ended? && r.calls[i].committed && i < |s.requests|
    && (forall name :: History(r.server.topics, name) == History(s.server.topics, name) + For(records, name))
    && r.server.committed == s.server.committed + (if s.requests[i].Some? then s.requests[i].value else map[])
  }

  function Tail(i: nat, request: Option<Offsets>): seq<Step> { (if request.Some? then [SendOffsets(i, true)] else []) + [Commit(i)] }

  function GoodRun(i: nat, records: seq<Record>, request: Option<Offsets>): seq<Step> {
    [Begin(i)] + ([Open(i, true)] + ([Produce(i, records)] + ([Land(i, 0)] + ([Return(i)] + ([Drain(i)] + Tail(i, request))))))
  }

  lemma CommitThrough(settings: Settings, s0: State, s: State, i: nat, records: seq<Record>, tx: Tx)
    requires Sane(settings, s) && i < |s0.calls| && i < |s0.requests|
    requires s == Further(s0, i, Committing, tx, records, if s0.requests[i].Some? then s0.requests[i].value else map[])
    requires forall x :: x in records ==> Lands(s0.server.topics, settings, x)
    ensures Runs(settings, s, [Commit(i)]) && WentThrough(settings, s0, i, records, Final(settings, s, [Commit(i)]))
  {
    var t := Committed(settings, s, i);
    AppendsToTheEnd(s.server.topics, settings, records);
    forall name ensures History(t.server.topics, name) == History(s0.server.topics, name) + For(records, name) {
      AppendsInOrder(s.server.topics, settings, records, name);
    }
    RunsFirst(settings, s, Commit(i), t, []);
    assert [Commit(i)] + [] == [Commit(i)];
  }

  lemma OffsetsThrough(settings: Settings, s0: State, s: State, i: nat, records: seq<Record>, tx: Tx)
    requires Sane(settings, s) && i < |s0.calls| && i < |s0.requests|
    requires s == Further(s0, i, if s0.requests[i].Some? then Offsetting else Committing, tx, records, map[])
    requires forall x :: x in records ==> Lands(s0.server.topics, settings, x)
    ensures Runs(settings, s, Tail(i, s0.requests[i])) && WentThrough(settings, s0, i, records, Final(settings, s, Tail(i, s0.requests[i])))
  {
    if s0.requests[i].Some? {
      var tx1 := tx.(offsetsTaken := true);
      var t := Further(s0, i, Committing, tx1, records, s0.requests[i].value);
      assert map[] + s0.requests[i].value == s0.requests[i].value;
      assert Next(settings, s, SendOffsets(i, true)) == t;
      StaysSane(settings, s, SendOffsets(i, true));
      CommitThrough(settings, s0, t, i, records, tx1);
      RunsFirst(settings, s, SendOffsets(i, true), t, [Commit(i)]);
    } else {
      CommitThrough(settings, s0, s, i, records, tx);
      NothingBefore([Commit(i)]);
    }
  }

  lemma DrainThrough(settings: Settings, s0: State, s: State, i: nat, records: seq<Record>, tx: Tx)
    requires Sane(settings, s) && i < |s0.calls| && i < |s0.requests| && !s0.closed && AllLanded(tx)
    requires s == Further(s0, i, Draining, tx, records, map[])
    requires forall x :: x in records ==> Lands(s0.server.topics, settings, x)
    ensures var steps := [Drain(i)] + Tail(i, s0.requests[i]);
            Runs(settings, s, steps) && WentThrough(settings, s0, i, records, Final(settings, s, steps))
  {
    var tx1 := tx.(inTime := true);
    var t := Further(s0, i, if s0.requests[i].Some? then Offsetting else Committing, tx1, records, map[]);
    assert Next(settings, s, Drain(i)) == t;
    StaysSane(settings, s, Drain(i));
    OffsetsThrough(settings, s0, t, i, records, tx1);
    RunsFirst(settings, s, Drain(i), t, Tail(i, s0.requests[i]));
  }

  lemma SendThrough(settings: Settings, s0: State, s: State, i: nat, records: seq<Record>)
    requires Sane(settings, s) && i < |s0.calls| && i < |s0.requests| && !s0.closed
    requires s == Further(s0, i, Calling, EMPTY.(begun := true), [], map[])
    requires forall x :: x in records ==> Fits(s0.server.topics, settings, x)
    ensures var steps := [Produce(i, records)] + ([Land(i, 0)] + ([Return(i)] + ([Drain(i)] + Tail(i, s0.requests[i]))));
            Runs(settings, s, steps) && WentThrough(settings, s0, i, records, Final(settings, s, steps))
  {
    var begun := EMPTY.(begun := true);
    var sending, landed := begun.(sends := [Send(records, Pending)]), begun.(sends := [Send(records, Landed)], landed := [0]);
    var s1 := Further(s0, i, Calling, sending, [], map[]);
    var s2 := Further(s0, i, Calling, landed, records, map[]);
    var s3 := Further(s0, i, Draining, landed.(resolved := true), records, map[]);
    Sends(settings, s0, s, s1, s2, s3, i, records);
    DrainThrough(settings, s0, s3, i, records, landed.(resolved := true));
    RunsFirst(settings, s2, Return(i), s3, [Drain(i)] + Tail(i, s0.requests[i]));
    RunsFirst(settings, s1, Land(i, 0), s2, [Return(i)] + ([Drain(i)] + Tail(i, s0.requests[i])));
    RunsFirst(settings, s, Produce(i, records), s1, [Land(i, 0)] + ([Return(i)] + ([Drain(i)] + Tail(i, s0.requests[i]))));
  }

  /** One send, begun, landed, and the function's return. */
  lemma Sends(settings: Settings, s0: State, s: State, s1: State, s2: State, s3: State, i: nat, records: seq<Record>)
    requires Sane(settings, s) && i < |s0.calls| && !s0.closed && forall x :: x in records ==> Fits(s0.server.topics, settings, x)
    requires var begun := EMPTY.(begun := true);
             var sending, landed := begun.(sends := [Send(records, Pending)]), begun.(sends := [Send(records, Landed)], landed := [0]);
             && s == Further(s0, i, Calling, begun, [], map[]) && s1 == Further(s0, i, Calling, sending, [], map[])
             && s2 == Further(s0, i, Calling, landed, records, map[])
             && s3 == Further(s0, i, Draining, landed.(resolved := true), records, map[])
    ensures Can(s, Produce(i, records)) && Next(settings, s, Produce(i, records)) == s1 && Sane(settings, s1)
    ensures Can(s1, Land(i, 0)) && Next(settings, s1, Land(i, 0)) == s2 && Sane(settings, s2)
    ensures Can(s2, Return(i)) && Next(settings, s2, Return(i)) == s3 && Sane(settings, s3)
  {
    assert [] + [Send(records, Pending)] == [Send(records, Pending)];
    StaysSane(settings, s, Produce(i, records));
    assert Next(settings, s, Produce(i, records)) == s1;
    assert [Send(records, Pending)][0 := Send(records, Landed)] == [Send(records, Landed)] && [] + [0] == [0] && [] + records == records;
    StaysSane(settings, s1, Land(i, 0));
    assert Next(settings, s1, Land(i, 0)) == s2;
    StaysSane(settings, s2, Return(i));
  }

  /**
   * From any state: a call whose turn came, while the harbor is open, can go
   * through. Its records, all fitting, land behind what was there, and its
   * offsets are committed with them.
   */
  lemma GoesThrough(settings: Settings, s: State, i: nat, records: seq<Record>)
    requires Sane(settings, s) && i < |s.calls| && s.calls[i].Queued? && TurnCame(s.calls, i) && !s.closed
    requires forall x :: x in records ==> Fits(s.server.topics, settings, x)
    ensures |s.requests| == |s.calls| && Runs(settings, s, GoodRun(i, records, s.requests[i]))
    ensures WentThrough(settings, s, i, records, Final(settings, s, GoodRun(i, records, s.requests[i])))
  {
    NeverOpenAlready(s, i);
    var s1 := Moved(s, i, Running(Opening, EMPTY));
    var s2 := Further(s, i, Calling, EMPTY.(begun := true), [], map[]);
    StaysSane(settings, s, Begin(i));
    Opens(settings, s, s1, s2, i);
    SendThrough(settings, s, s2, i, records);
    var rest := [Produce(i, records)] + ([Land(i, 0)] + ([Return(i)] + ([Drain(i)] + Tail(i, s.requests[i]))));
    RunsFirst(settings, s1, Open(i, true), s2, rest);
    RunsFirst(settings, s, Begin(i), s1, [Open(i, true)] + rest);
  }

  lemma Opens(settings: Settings, s: State, s1: State, s2: State, i: nat)
    requires Sane(settings, s1) && i < |s.calls| && s1 == Moved(s, i, Running(Opening, EMPTY)) && !s.server.open
    requires s2 == Further(s, i, Calling, EMPTY.(begun := true), [], map[])
    ensures Can(s1, Open(i, true)) && Next(settings, s1, Open(i, true)) == s2 && Sane(settings, s2)
  {
    StaysSane(settings, s1, Open(i, true));
  }

  /** A run in which every topic made by hand is made roomy enough. */
  ghost predicate RoomyRun(settings: Settings, s: State, steps: seq<Step>)
    requires Sane(settings, s) && Runs(settings, s, steps)
    decreases |steps|
  {
    steps == [] ||
    (Roomy(settings, s, steps[0]) && (StaysSane(settings, s, steps[0]); RoomyRun(settings, Next(settings, s, steps[0]), steps[1..])))
  }

  /** Such a run is one in which no commit breaks off. */
  lemma {:induction false} RoomyRunsAreClean(settings: Settings, s: State, steps: seq<Step>)
    requires Valid(settings, s) && BufferOk(settings, s) && Runs(settings, s, steps) && RoomyRun(settings, s, steps)
    ensures Playable(settings, s, steps) && Play(settings, s, steps) == Final(settings, s, steps)
    decreases |steps|
  {
    if steps != [] {
      RoomyKeeps(settings, s, steps[0]);
      StepKeeps(settings, s, steps[0]);
      StaysSane(settings, s, steps[0]);
      RoomyRunsAreClean(settings, Next(settings, s, steps[0]), steps[1..]);
    }
  }

  // ------------------------------------------------- where it does not hold

  const FIRST := Record("a", None, None, "1")
  const SECOND := Record("b", Some(1), None, "2")

  function HalfStep(i: nat): Step {
    match i
    case 0 => Ask(false, None)
    case 1 => Begin(0)
    case 2 => Open(0, true)
    case 3 => Produce(0, [FIRST, SECOND])
    case 4 => Land(0, 0)
    case 5 => MakeTopic("b", 1)
    case 6 => Return(0)
    case 7 => Drain(0)
    case _ => Commit(0)
  }

  function One(call: Call, open: bool, buffered: seq<Record>, made: bool): State {
    State([call], [None], false, Server(if made then map["b" := Empty(1)] else map[], map[], open, buffered, map[]), if made then [Made("b", 1)] else [])
  }

  /** A transaction whose only send landed, with a topic made by hand since. */
  function HalfWay(i: nat): State {
    var begun := EMPTY.(begun := true);
    var landed := begun.(sends := [Send([FIRST, SECOND], Landed)], landed := [0]);
    match i
    case 0 => Initial()
    case 1 => One(Queued, false, [], false)
    case 2 => One(Running(Opening, EMPTY), false, [], false)
    case 3 => One(Running(Calling, begun), true, [], false)
    case 4 => One(Running(Calling, begun.(sends := [Send([FIRST, SECOND], Pending)])), true, [], false)
    case 5 => One(Running(Calling, landed), true, [FIRST, SECOND], false)
    case 6 => One(Running(Calling, landed), true, [FIRST, SECOND], true)
    case 7 => One(Running(Draining, landed.(resolved := true)), true, [FIRST, SECOND], true)
    case _ => One(Running(Committing, landed.(resolved := true, inTime := true)), true, [FIRST, SECOND], true)
  }

  lemma HalfBegins(settings: Settings, i: nat)
    requires i < 4 && settings.partitions > 0
    ensures Can(HalfWay(i), HalfStep(i)) && Next(settings, HalfWay(i), HalfStep(i)) == HalfWay(i + 1)
  {
    assert [] + [Send([FIRST, SECOND], Pending)] == [Send([FIRST, SECOND], Pending)];
  }

  lemma HalfLands(settings: Settings)
    requires settings.partitions > 1 && settings.autoCreate
    ensures Can(HalfWay(4), HalfStep(4)) && Next(settings, HalfWay(4), HalfStep(4)) == HalfWay(5)
  {
    var s := HalfWay(4);
    assert Fits(s.server.topics, settings, FIRST) && Fits(s.server.topics, settings, SECOND);
    assert [] + [FIRST, SECOND] == [FIRST, SECOND] && [] + [0] == [0];
    var sends := s.calls[0].tx.sends;
    assert sends[0 := sends[0].(status := Landed)] == [Send([FIRST, SECOND], Landed)];
  }

  lemma HalfGoesOn(settings: Settings, i: nat)
    requires 5 <= i < 8 && settings.partitions > 0
    ensures TopicsOk(HalfWay(i).server.topics) && Can(HalfWay(i), HalfStep(i)) && Next(settings, HalfWay(i), HalfStep(i)) == HalfWay(i + 1)
  {
  }

  function HalfSteps(i: nat): seq<Step>
    decreases 9 - i
  {
    if i >= 9 then [] else [HalfStep(i)] + HalfSteps(i + 1)
  }

  lemma {:induction false} HalfRuns(settings: Settings, i: nat)
    requires i <= 8 && settings.partitions > 1 && settings.autoCreate && Sane(settings, HalfWay(i))
    requires At(HalfWay(8), 0, Committing) && TopicsOk(HalfWay(8).server.topics)
    ensures Runs(settings, HalfWay(i), HalfSteps(i)) && Final(settings, HalfWay(i), HalfSteps(i)) == Committed(settings, HalfWay(8), 0)
    decreases 9 - i
  {
    assert HalfSteps(i)[1..] == HalfSteps(i + 1);
    StaysSane(settings, HalfWay(i), HalfStep(i));
    if i < 8 {
      if i < 4 { HalfBegins(settings, i); } else if i == 4 { HalfLands(settings); } else { HalfGoesOn(settings, i); }
      HalfRuns(settings, i + 1);
    } else {
      assert HalfSteps(9) == [];
    }
  }

  lemma HalfLast(settings: Settings)
    requires settings.partitions > 0
    ensures At(HalfWay(8), 0, Committing) && TopicsOk(HalfWay(8).server.topics)
  {
    HalfGoesOn(settings, 7);
  }

  /** A topic made by hand with too few partitions between a send and the commit: half of the transaction lands, and it ends aborted. */
  lemma HalfCommitted(settings: Settings)
    requires settings.partitions > 1 && settings.autoCreate
    ensures Sane(settings, Initial()) && Runs(settings, Initial(), HalfSteps(0))
    ensures HalfDone(Final(settings, Initial(), HalfSteps(0)))
  {
    HalfLast(settings);
    HalfRuns(settings, 0);
    HalfEnds(settings);
  }

  /** Its one call ended aborted and is not in the books, and its first record is on the topic. */
  ghost predicate HalfDone(r: State) {
    |r.calls| == 1 && r.calls[0].Ended? && !r.calls[0].committed && History(r.server.topics, "a") == [FIRST] && !Listed(r.ledger, 0)
  }

  lemma HalfEnds(settings: Settings)
    requires settings.partitions > 1 && settings.autoCreate
    requires At(HalfWay(8), 0, Committing) && TopicsOk(HalfWay(8).server.topics)
    ensures HalfDone(Committed(settings, HalfWay(8), 0))
  {
    var s := HalfWay(8);
    assert !Lands(s.server.topics, settings, SECOND);
    assert SECOND in s.server.buffered;
    CommitsWhole(settings, s, 0);
    OneGrows(s.server.topics, settings, FIRST, "a");
    HalfAppended(s.server.topics, settings, FIRST, SECOND);
  }

  lemma HalfAppended(topics: Topics, settings: Settings, first: Record, second: Record)
    requires TopicsOk(topics) && settings.partitions > 0 && Lands(topics, settings, first) && !Lands(topics, settings, second)
    requires second.topic in topics
    ensures Appended(topics, settings, [first, second]).0 == AppendedOne(topics, settings, first)
  {
    LandsStays(topics, settings, first, [second]);
    assert [first, second][1..] == [second];
    assert second in [second];
  }
}
