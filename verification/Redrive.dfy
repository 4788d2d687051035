/**
 * Re-producing what a dead-letter topic holds, over any number of runs
 * that may each be cut short anywhere: what is re-produced, and what the
 * drained group's committed offset says about it.
 */
module Redrive {
  import opened Basics
  import opened Headers

  /** What one redrive of the topic asks for, and the group it drains as. */
  datatype Options = Options(group: string, to: Option<string>, max: Option<nat>, filtered: bool)

  datatype Rec = Rec(key: Option<string>, value: Option<string>, headers: HeaderMap)

  /** A re-produced message, and what the run that re-produced it was asked for. */
  datatype Copy = Copy(partition: nat, offset: nat, asked: Options, target: string, record: Rec)

  /** Where the one delivery in progress stands. */
  datatype Busy = Free | Asking(partition: nat) | Producing(partition: nat, target: string) | Committing(partition: nat, reproduced: bool)

  /** `before`, for the record: how many copies there were when the run started. `idled`: nothing came for long enough. */
  datatype Run = Run(options: Options, before: nat, pos: map<nat, nat>, busy: Busy, aborted: bool, failed: bool, idled: bool, reprocessed: nat, skipped: nat)

  datatype State = State(
    log: map<nat, seq<Rec>>,
    committed: map<string, map<nat, nat>>,   // by group
    copies: seq<Copy>,
    rejected: set<(nat, nat)>,
    answers: set<(nat, nat, bool)>,          // what filters said of a message
    run: Option<Run>)

  datatype Step =
    | Start(options: Options)
    | Arrive(partition: nat, rec: Rec)
    | Deliver(partition: nat)
    | Filter(keep: bool)
    | Acked(hop: HopInput)
    | Fail                        // the filter threw, or the produce was not acknowledged
    | CommitEnds(landed: bool)
    | Idle
    | End                         // the run is over, or the process died

  function Upto(m: map<nat, nat>, p: nat): nat { if p in m then m[p] else 0 }

  function Drained(s: State, group: string): map<nat, nat> { if group in s.committed then s.committed[group] else map[] }

  function Log(s: State, p: nat): seq<Rec> { if p in s.log then s.log[p] else [] }

  // ------------------------------------------------------------ the message

  /** Options a redrive accepts. */
  predicate Accepted(source: string, o: Options) {
    && (o.to.Some? ==> o.to.value != "" && o.to.value != source)
    && (o.max.Some? ==> o.max.value > 0)
  }

  /** Where a message goes: where the caller says, else where it came from; never nowhere, and never back into what is drained. */
  function Target(source: string, o: Options, names: Names, h: HeaderMap): Option<string> {
    var t := if o.to.Some? then o.to else Get(h, names.OriginalTopic());
    if t.None? || Blank(t.value) || t.value == source then None else t
  }

  function Tracking(names: Names): set<string> {
    {names.RetryCount(), names.OriginalTopic(), names.FirstFailureAt(), names.LastError(), names.DeadLetteredAt()}
  }

  /** The tracking of the failed run goes, the redrive is noted, and the record is stamped and merged like every hop. */
  function Redriven(h: HeaderMap, names: Names, ins: Instants, source: string, i: HopInput): HeaderMap {
    Outgoing((h - Tracking(names))[names.RedrivenFrom() := source][names.RedrivenAt() := ins.iso(i.now)], names, ins, i)
  }

  lemma NamesApart(n: Names)
    ensures {n.CorrelationId(), n.ProducedAt(), n.Producer(), n.RedrivenFrom(), n.RedrivenAt()} !! Tracking(n)
    ensures {n.CorrelationId(), n.ProducedAt(), n.Producer()} !! {n.RedrivenFrom(), n.RedrivenAt()}
    ensures n.RedrivenFrom() != n.RedrivenAt()
  {
    StampsApart(n);
    NotesApart(n);
  }

  lemma StampsApart(n: Names)
    ensures {n.CorrelationId(), n.ProducedAt(), n.Producer()} !! Tracking(n)
    ensures {n.CorrelationId(), n.ProducedAt(), n.Producer()} !! {n.RedrivenFrom(), n.RedrivenAt()}
  {
    NamesDistinct(n);
    StampsAside(n);
  }

  lemma StampsAside(n: Names)
    ensures {n.CorrelationId(), n.ProducedAt(), n.Producer()} !! {n.DeadLetteredAt(), n.RedrivenFrom(), n.RedrivenAt()}
  {
    PrefixKeepsDistinct(n.prefix);
  }

  lemma NotesApart(n: Names)
    ensures {n.RedrivenFrom(), n.RedrivenAt()} !! Tracking(n) && n.RedrivenFrom() != n.RedrivenAt()
  {
    PrefixKeepsDistinct(n.prefix);
  }

  /** A redriven message is on no level of any ladder, on whatever topic it lands: of the failed run's tracking only what a hook adds itself is left. */
  lemma FreshLadder(h: HeaderMap, names: Names, ins: Instants, source: string, i: HopInput)
    ensures var r := Redriven(h, names, ins, source, i);
            && (forall n :: n in Tracking(names) ==> Get(r, n) == Get(i.hook.added, n))
            && (names.RetryCount() !in i.hook.added ==> ReadRetryInfo(Decoded(Wire(r)), names, ins) == None)
            && Get(r, names.RedrivenFrom()) == Some(source)
            && Get(r, names.RedrivenAt()) == Some(ins.iso(i.now))
  {
    NamesApart(names);
    var r := Redriven(h, names, ins, source, i);
    WireRoundTrip(r);
    TrackingGoes(h, names, ins, source, i);
    assert names.RetryCount() in Tracking(names);
  }

  /** A redriven message keeps the correlation id it failed under. */
  lemma RedriveCorrelates(h: HeaderMap, names: Names, ins: Instants, source: string, i: HopInput)
    ensures var id := Get(h, names.CorrelationId());
            Get(Decoded(Wire(Redriven(h, names, ins, source, i))), names.CorrelationId()) == NonBlankOr(id, i.minted)
  {
    NamesApart(names);
    StampsSurvive((h - Tracking(names))[names.RedrivenFrom() := source][names.RedrivenAt() := ins.iso(i.now)], names, ins, i);
  }

  lemma TrackingGoes(h: HeaderMap, names: Names, ins: Instants, source: string, i: HopInput)
    ensures forall n :: n in Tracking(names) ==> Get(Redriven(h, names, ins, source, i), n) == Get(i.hook.added, n)
  {
    NamesApart(names);
    var kept := (h - Tracking(names))[names.RedrivenFrom() := source][names.RedrivenAt() := ins.iso(i.now)];
    var stamped := StampProducer(kept, names, ins, i.clientId, i.now, i.minted);
    forall n | n in Tracking(names) ensures n !in stamped { assert n !in h - Tracking(names); }
  }

  /** What the application put on the message travels back with it. */
  lemma OwnHeadersTravel(h: HeaderMap, names: Names, ins: Instants, source: string, i: HopInput, name: string)
    requires name in h && name !in names.All() && name !in i.hook.declared
    ensures Get(Redriven(h, names, ins, source, i), name) == Some(h[name])
  {
  }

  // ------------------------------------------------------------ the machine

  predicate Can(s: State, step: Step) {
    match step
    case Start(_) => s.run.None?
    case Arrive(_, _) => true
    case Deliver(p) => s.run.Some? && s.run.value.busy.Free? && Upto(s.run.value.pos, p) < |Log(s, p)|
    case Filter(_) => s.run.Some? && s.run.value.busy.Asking? && Upto(s.run.value.pos, s.run.value.busy.partition) < |Log(s, s.run.value.busy.partition)|
    case Acked(_) => s.run.Some? && s.run.value.busy.Producing? && Upto(s.run.value.pos, s.run.value.busy.partition) < |Log(s, s.run.value.busy.partition)|
    case Fail => s.run.Some? && (s.run.value.busy.Asking? || s.run.value.busy.Producing?)
    case CommitEnds(_) => s.run.Some? && s.run.value.busy.Committing?
    case Idle => s.run.Some? && s.run.value.busy.Free?
    case End => s.run.Some?
  }

  /** The delivery is settled and the partition moves on. */
  function Past(r: Run, p: nat): Run { r.(pos := Onward(r.pos, p), busy := Free) }

  function Onward(pos: map<nat, nat>, p: nat): map<nat, nat> { pos[p := Upto(pos, p) + 1] }

  function Failed(r: Run, p: nat): Run { Past(r, p).(aborted := true, failed := true) }

  /** One message more counts towards what the run may take. */
  function Taking(r: Run): Run
    requires r.busy.Committing?
  {
    if r.busy.reproduced then r.(reprocessed := r.reprocessed + 1) else r.(skipped := r.skipped + 1)
  }

  function Counted(r: Run): Run {
    if r.options.max.Some? && r.reprocessed + r.skipped >= r.options.max.value then r.(aborted := true) else r
  }

  /** The group's offset moves past the message, if the commit landed. */
  function Advanced(s: State, r: Run, p: nat, landed: bool): map<string, map<nat, nat>> {
    var g := r.options.group;
    if landed then s.committed[g := Drained(s, g)[p := Upto(r.pos, p) + 1]] else s.committed
  }

  function Next(source: string, names: Names, ins: Instants, s: State, step: Step): State
    requires Can(s, step)
  {
    match step
    case Start(o) => if Accepted(source, o) then s.(run := Some(Run(o, |s.copies|, Drained(s, o.group), Free, false, false, false, 0, 0))) else s
    case Arrive(p, rec) => s.(log := s.log[p := Log(s, p) + [rec]])
    case Deliver(p) =>
      var r := s.run.value;
      var target := Target(source, r.options, names, Log(s, p)[Upto(r.pos, p)].headers);
      s.(run := Some(
        if r.aborted then Past(r, p)
        else if target.None? then Failed(r, p)
        else r.(busy := if r.options.filtered then Asking(p) else Producing(p, target.value))))
    case Filter(keep) =>
      var r := s.run.value;
      var p := r.busy.partition;
      var target := Target(source, r.options, names, Log(s, p)[Upto(r.pos, p)].headers);
      var t := s.(answers := s.answers + {(p, Upto(r.pos, p), keep)});
      if keep && target.Some? then t.(run := Some(r.(busy := Producing(p, target.value))))
      else t.(run := Some(r.(busy := Committing(p, false))), rejected := s.rejected + {(p, Upto(r.pos, p))})
    case Acked(hop) =>
      var r := s.run.value;
      var p, off := r.busy.partition, Upto(r.pos, r.busy.partition);
      var rec := Log(s, p)[off];
      var copy := Copy(p, off, r.options, r.busy.target, rec.(headers := Redriven(rec.headers, names, ins, source, hop)));
      s.(copies := s.copies + [copy], run := Some(r.(busy := Committing(p, true))))
    case Fail => s.(run := Some(Failed(s.run.value, s.run.value.busy.partition)))
    case CommitEnds(landed) =>
      var r := s.run.value;
      var p := r.busy.partition;
      s.(run := Some(Counted(Past(Taking(r), p))), committed := Advanced(s, r, p, landed))
    case Idle => s.(run := Some(s.run.value.(aborted := true, idled := true)))
    case End => s.(run := None)
  }

  // ------------------------------------------------------------- what holds

  /** A copy is the message it copies: its bytes, under fresh headers, where its run was asked to send it or where it came from, and not in the topic being drained. */
  ghost predicate Faithful(source: string, names: Names, ins: Instants, s: State, c: Copy) {
    && c.offset < |Log(s, c.partition)|
    && var rec := Log(s, c.partition)[c.offset];
    && c.record.key == rec.key && c.record.value == rec.value
    && Target(source, c.asked, names, rec.headers) == Some(c.target) && c.target != source
    && exists hop :: c.record.headers == Redriven(rec.headers, names, ins, source, hop)
  }

  ghost predicate Copied(s: State, p: nat, off: nat) { exists c :: c in s.copies && c.partition == p && c.offset == off }

  ghost predicate Settled(s: State, p: nat, off: nat) { Copied(s, p, off) || (p, off) in s.rejected }

  ghost predicate SettledTo(s: State, p: nat, upto: nat) { forall off :: 0 <= off < upto ==> Settled(s, p, off) }

  /** Everything before these positions. */
  ghost predicate AllSettled(s: State, pos: map<nat, nat>) { forall p :: SettledTo(s, p, Upto(pos, p)) }

  /** Everything a group committed past, and there is nothing it committed that is not there. */
  ghost predicate GroupOk(s: State, group: string) {
    forall p :: SettledTo(s, p, Upto(Drained(s, group), p)) && Upto(Drained(s, group), p) <= |Log(s, p)|
  }

  /** As many messages taken as the run was asked for. */
  predicate Full(r: Run) { r.options.max.Some? && r.reprocessed + r.skipped == r.options.max.value }

  /** No more than that; and the run takes no more exactly when it has them, failed, or found nothing for long enough. */
  ghost predicate MaxOk(r: Run) {
    && (r.options.max.Some? ==> r.reprocessed + r.skipped <= r.options.max.value)
    && (r.aborted <==> Full(r) || r.failed || r.idled)
  }

  /** What the run counts as re-produced are its copies. */
  ghost predicate CountOk(s: State, r: Run) {
    |s.copies| == r.before + r.reprocessed + (if r.busy.Committing? && r.busy.reproduced then 1 else 0)
  }

  /** Only what a filter refused is rejected, and where there is a filter only what it kept is re-produced. */
  ghost predicate Answered(s: State) {
    && (forall m :: m in s.rejected ==> (m.0, m.1, false) in s.answers)
    && (forall c :: c in s.copies && c.asked.filtered ==> (c.partition, c.offset, true) in s.answers)
  }

  ghost predicate RunOk(source: string, names: Names, s: State, r: Run) {
    && Accepted(source, r.options)
    && (forall p :: Upto(Drained(s, r.options.group), p) <= Upto(r.pos, p) <= |Log(s, p)|)
    && (!r.aborted ==> AllSettled(s, r.pos))
    && (r.aborted ==> r.busy.Free?)
    && (!r.busy.Free? ==> BusyOk(source, names, s, r))
    && MaxOk(r) && CountOk(s, r)
  }

  ghost predicate BusyOk(source: string, names: Names, s: State, r: Run)
    requires !r.busy.Free?
  {
    var p, off := r.busy.partition, Upto(r.pos, r.busy.partition);
    && off < |Log(s, p)|
    && Target(source, r.options, names, Log(s, p)[off].headers).Some?
    && (r.busy.Asking? ==> r.options.filtered)
    && (r.busy.Producing? ==> Target(source, r.options, names, Log(s, p)[off].headers) == Some(r.busy.target))
    && (r.busy.Producing? && r.options.filtered ==> (p, off, true) in s.answers)
    && (r.busy.Committing? ==> if r.busy.reproduced then Copied(s, p, off) else (p, off) in s.rejected)
  }

  ghost predicate Valid(source: string, names: Names, ins: Instants, s: State) {
    && (forall g :: GroupOk(s, g))
    && (forall c :: c in s.copies ==> Faithful(source, names, ins, s, c)) && Answered(s)
    && (s.run.Some? ==> RunOk(source, names, s, s.run.value))
  }

  /** Nothing settled is lost: longer logs, more copies, more rejections. */
  ghost predicate Grows(s: State, t: State) {
    && (forall c :: c in s.copies ==> c in t.copies) && s.rejected <= t.rejected && s.answers <= t.answers
    && forall p :: Log(s, p) <= Log(t, p)
  }

  lemma SettledGrows(s: State, t: State, p: nat, upto: nat)
    requires SettledTo(s, p, upto) && Grows(s, t)
    ensures SettledTo(t, p, upto)
  {
    forall off | 0 <= off < upto ensures Settled(t, p, off) {
      assert Settled(s, p, off);
    }
  }

  lemma AllSettledGrows(s: State, t: State, upto: map<nat, nat>)
    requires AllSettled(s, upto) && Grows(s, t)
    ensures AllSettled(t, upto)
  {
    forall p ensures SettledTo(t, p, Upto(upto, p)) { SettledGrows(s, t, p, Upto(upto, p)); }
  }

  lemma GroupGrows(s: State, t: State, g: string)
    requires GroupOk(s, g) && Grows(s, t) && Drained(t, g) == Drained(s, g)
    ensures GroupOk(t, g)
  {
    AllSettledGrows(s, t, Drained(s, g));
    forall p ensures Upto(Drained(t, g), p) <= |Log(t, p)| { assert Log(s, p) <= Log(t, p); }
  }

  lemma CopiesGrow(source: string, names: Names, ins: Instants, s: State, t: State)
    requires forall c :: c in s.copies ==> Faithful(source, names, ins, s, c)
    requires Grows(s, t) && forall c :: c in t.copies && c !in s.copies ==> Faithful(source, names, ins, t, c)
    ensures forall c :: c in t.copies ==> Faithful(source, names, ins, t, c)
  {
    forall c | c in s.copies ensures Faithful(source, names, ins, t, c) {
      assert Faithful(source, names, ins, s, c);
      assert Log(s, c.partition) <= Log(t, c.partition);
    }
  }

  /** The books after a step that commits nothing. */
  lemma BooksGrow(source: string, names: Names, ins: Instants, s: State, t: State)
    requires Valid(source, names, ins, s) && Grows(s, t) && t.committed == s.committed
    requires forall c :: c in t.copies && c !in s.copies ==> Faithful(source, names, ins, t, c)
    requires Answered(t)
    requires t.run.Some? ==> RunOk(source, names, t, t.run.value)
    ensures Valid(source, names, ins, t)
  {
    forall g ensures GroupOk(t, g) { GroupGrows(s, t, g); }
    CopiesGrow(source, names, ins, s, t);
  }

  lemma ArriveKeeps(source: string, names: Names, ins: Instants, s: State, p: nat, rec: Rec)
    requires Valid(source, names, ins, s)
    ensures Valid(source, names, ins, Next(source, names, ins, s, Arrive(p, rec)))
  {
    var t := Next(source, names, ins, s, Arrive(p, rec));
    assert Grows(s, t);
    if s.run.Some? { ArriveRun(source, names, s, t, s.run.value); }
    BooksGrow(source, names, ins, s, t);
  }

  lemma ArriveRun(source: string, names: Names, s: State, t: State, r: Run)
    requires RunOk(source, names, s, r) && Grows(s, t) && t.committed == s.committed && t.copies == s.copies
    ensures RunOk(source, names, t, r)
  {
    forall p ensures Upto(r.pos, p) <= |Log(t, p)| { assert Log(s, p) <= Log(t, p); }
    if !r.aborted { AllSettledGrows(s, t, r.pos); }
    if !r.busy.Free? { assert Log(s, r.busy.partition) <= Log(t, r.busy.partition); }
  }

  lemma StartKeeps(source: string, names: Names, ins: Instants, s: State, o: Options)
    requires Valid(source, names, ins, s) && s.run.None?
    ensures Valid(source, names, ins, Next(source, names, ins, s, Start(o)))
  {
    var t := Next(source, names, ins, s, Start(o));
    assert GroupOk(s, o.group);
    AllSettledGrows(s, t, Drained(s, o.group));
    BooksGrow(source, names, ins, s, t);
  }

  /** Steps that copy, reject and commit nothing. */
  lemma QuietKeeps(source: string, names: Names, ins: Instants, s: State, r: Option<Run>)
    requires Valid(source, names, ins, s)
    requires r.Some? ==> RunOk(source, names, s, r.value)
    ensures Valid(source, names, ins, s.(run := r))
  {
    var t := s.(run := r);
    if r.Some? { ArriveRun(source, names, s, t, r.value); }
    BooksGrow(source, names, ins, s, t);
  }

  lemma DeliverKeeps(source: string, names: Names, ins: Instants, s: State, p: nat)
    requires Valid(source, names, ins, s) && Can(s, Deliver(p))
    ensures Valid(source, names, ins, Next(source, names, ins, s, Deliver(p)))
  {
    QuietKeeps(source, names, ins, s, Next(source, names, ins, s, Deliver(p)).run);
  }

  lemma FailKeeps(source: string, names: Names, ins: Instants, s: State, step: Step)
    requires Valid(source, names, ins, s) && Can(s, step) && (step.Fail? || step.Idle? || step.End?)
    ensures Valid(source, names, ins, Next(source, names, ins, s, step))
  {
    QuietKeeps(source, names, ins, s, Next(source, names, ins, s, step).run);
  }

  lemma FilterKeeps(source: string, names: Names, ins: Instants, s: State, keep: bool)
    requires Valid(source, names, ins, s) && Can(s, Filter(keep))
    ensures Valid(source, names, ins, Next(source, names, ins, s, Filter(keep)))
  {
    var t := Next(source, names, ins, s, Filter(keep));
    AllSettledGrows(s, t, s.run.value.pos);
    BooksGrow(source, names, ins, s, t);
  }

  lemma AckedKeeps(source: string, names: Names, ins: Instants, s: State, hop: HopInput)
    requires Valid(source, names, ins, s) && Can(s, Acked(hop))
    ensures Valid(source, names, ins, Next(source, names, ins, s, Acked(hop)))
  {
    var t := Next(source, names, ins, s, Acked(hop));
    var copy := t.copies[|s.copies|];
    AllSettledGrows(s, t, s.run.value.pos);
    assert copy in t.copies && Copied(t, copy.partition, copy.offset);
    BooksGrow(source, names, ins, s, t);
  }

  /** The message whose offset is being committed is settled, and so is everything before it. */
  lemma PastSettled(s: State, t: State, pos: map<nat, nat>, p: nat)
    requires AllSettled(s, pos) && Settled(s, p, Upto(pos, p)) && Grows(s, t)
    ensures AllSettled(t, Onward(pos, p))
  {
    forall q ensures SettledTo(t, q, Upto(Onward(pos, p), q)) {
      SettledGrows(s, t, q, Upto(pos, q));
      if q == p { assert Settled(t, p, Upto(pos, p)); }
    }
  }

  lemma CommitGroups(source: string, names: Names, s: State, t: State, r: Run, p: nat, landed: bool)
    requires (forall g :: GroupOk(s, g)) && Grows(s, t) && RunOk(source, names, s, r) && Upto(r.pos, p) < |Log(s, p)|
    requires AllSettled(t, Onward(r.pos, p))
    requires t.committed == Advanced(s, r, p, landed)
    ensures forall g :: GroupOk(t, g)
  {
    forall g ensures GroupOk(t, g) {
      if landed && g == r.options.group {
        forall q ensures SettledTo(t, q, Upto(Drained(t, g), q)) && Upto(Drained(t, g), q) <= |Log(t, q)| {
          assert SettledTo(t, q, Upto(Onward(r.pos, p), q));
          assert Log(s, q) <= Log(t, q);
          if q != p { assert GroupOk(s, g); SettledGrows(s, t, q, Upto(Drained(s, g), q)); }
        }
      } else {
        GroupGrows(s, t, g);
      }
    }
  }

  lemma CountKeeps(r: Run, p: nat)
    requires MaxOk(r) && !r.aborted && r.busy.Committing?
    ensures MaxOk(Counted(Past(Taking(r), p)))
    ensures forall s :: CountOk(s, r) ==> CountOk(s, Counted(Past(Taking(r), p)))
  {
  }

  lemma CommitPositions(s: State, t: State, r: Run, p: nat, landed: bool)
    requires forall q :: Upto(Drained(s, r.options.group), q) <= Upto(r.pos, q) <= |Log(s, q)|
    requires Upto(r.pos, p) < |Log(s, p)| && t.log == s.log && t.committed == Advanced(s, r, p, landed)
    ensures forall q :: Upto(Drained(t, r.options.group), q) <= Upto(Onward(r.pos, p), q) <= |Log(t, q)|
  {
    forall q ensures Upto(Drained(t, r.options.group), q) <= Upto(Onward(r.pos, p), q) <= |Log(t, q)| {
      assert Upto(Drained(s, r.options.group), q) <= Upto(r.pos, q) <= |Log(s, q)|;
    }
  }

  lemma CommitRun(source: string, names: Names, ins: Instants, s: State, landed: bool)
    requires Valid(source, names, ins, s) && Can(s, CommitEnds(landed))
    requires AllSettled(Next(source, names, ins, s, CommitEnds(landed)), Onward(s.run.value.pos, s.run.value.busy.partition))
    ensures var t := Next(source, names, ins, s, CommitEnds(landed)); RunOk(source, names, t, t.run.value)
  {
    var r, t := s.run.value, Next(source, names, ins, s, CommitEnds(landed));
    CommitPositions(s, t, r, r.busy.partition, landed);
    CountKeeps(r, r.busy.partition);
  }

  lemma CommitKeeps(source: string, names: Names, ins: Instants, s: State, landed: bool)
    requires Valid(source, names, ins, s) && Can(s, CommitEnds(landed))
    ensures Valid(source, names, ins, Next(source, names, ins, s, CommitEnds(landed)))
  {
    var t := Next(source, names, ins, s, CommitEnds(landed));
    var r := s.run.value;
    PastSettled(s, t, r.pos, r.busy.partition);
    CommitGroups(source, names, s, t, r, r.busy.partition, landed);
    CommitRun(source, names, ins, s, landed);
    CopiesGrow(source, names, ins, s, t);
  }

  lemma NextKeeps(source: string, names: Names, ins: Instants, s: State, step: Step)
    requires Valid(source, names, ins, s) && Can(s, step)
    ensures Valid(source, names, ins, Next(source, names, ins, s, step))
  {
    match step
    case Start(o) => StartKeeps(source, names, ins, s, o);
    case Arrive(p, rec) => ArriveKeeps(source, names, ins, s, p, rec);
    case Deliver(p) => DeliverKeeps(source, names, ins, s, p);
    case Filter(keep) => FilterKeeps(source, names, ins, s, keep);
    case Acked(hop) => AckedKeeps(source, names, ins, s, hop);
    case CommitEnds(landed) => CommitKeeps(source, names, ins, s, landed);
    case _ => FailKeeps(source, names, ins, s, step);
  }

  // ------------------------------------------------------------- whole runs

  ghost predicate Playable(source: string, names: Names, ins: Instants, s: State, steps: seq<Step>)
    decreases |steps|
  {
    steps == [] || (Can(s, steps[0]) && Playable(source, names, ins, Next(source, names, ins, s, steps[0]), steps[1..]))
  }

  ghost function Play(source: string, names: Names, ins: Instants, s: State, steps: seq<Step>): State
    requires Playable(source, names, ins, s, steps)
    decreases |steps|
  {
    if steps == [] then s else Play(source, names, ins, Next(source, names, ins, s, steps[0]), steps[1..])
  }

  lemma {:induction false} RunKeeps(source: string, names: Names, ins: Instants, s: State, steps: seq<Step>)
    requires Valid(source, names, ins, s) && Playable(source, names, ins, s, steps)
    ensures Valid(source, names, ins, Play(source, names, ins, s, steps))
    decreases |steps|
  {
    if steps != [] {
      NextKeeps(source, names, ins, s, steps[0]);
      RunKeeps(source, names, ins, Next(source, names, ins, s, steps[0]), steps[1..]);
    }
  }

  /**
   * Over any number of runs, each with options and a group of its own,
   * interrupted anywhere and resumed: a dead letter below what any draining
   * group committed was re-produced, its bytes untouched, and acknowledged,
   * or a filter rejected it. Nothing is ever sent back into the topic being
   * drained, and no run takes more than it was asked to.
   */
  lemma NeverLoses(source: string, names: Names, ins: Instants, log: map<nat, seq<Rec>>, steps: seq<Step>)
    requires Playable(source, names, ins, State(log, map[], [], {}, {}, None), steps)
    ensures var t := Play(source, names, ins, State(log, map[], [], {}, {}, None), steps);
            && (forall g, p :: SettledTo(t, p, Upto(Drained(t, g), p)))
            && (forall c :: c in t.copies ==> Faithful(source, names, ins, t, c)) && Answered(t)
            && (t.run.Some? ==> MaxOk(t.run.value) && CountOk(t, t.run.value))
  {
    var t := Play(source, names, ins, State(log, map[], [], {}, {}, None), steps);
    RunKeeps(source, names, ins, State(log, map[], [], {}, {}, None), steps);
    forall g, p ensures SettledTo(t, p, Upto(Drained(t, g), p)) { assert GroupOk(t, g); }
  }

  /** After its first failure a run copies, rejects and commits nothing any more. */
  lemma {:induction false} NothingAfterFailure(source: string, names: Names, ins: Instants, s: State, steps: seq<Step>)
    requires Valid(source, names, ins, s) && Playable(source, names, ins, s, steps) && s.run.Some? && s.run.value.failed
    requires forall i :: 0 <= i < |steps| ==> !steps[i].End?
    ensures var t := Play(source, names, ins, s, steps);
            t.committed == s.committed && t.copies == s.copies && t.rejected == s.rejected
    decreases |steps|
  {
    if steps != [] {
      NextKeeps(source, names, ins, s, steps[0]);
      NothingAfterFailure(source, names, ins, Next(source, names, ins, s, steps[0]), steps[1..]);
    }
  }

  // ------------------------------------------------------- what one step decides

  /** The message the run is at, and which of them it is. */
  function Current(s: State): (nat, nat)
    requires s.run.Some? && !s.run.value.busy.Free?
  {
    (s.run.value.busy.partition, Upto(s.run.value.pos, s.run.value.busy.partition))
  }

  /** The filter refuses this message here. */
  predicate Refuses(s: State, step: Step, m: (nat, nat)) {
    step.Filter? && !step.keep && s.run.Some? && s.run.value.busy.Asking? && m == Current(s)
  }

  /** A message the filter keeps is re-produced next; one it refuses is rejected, and its offset committed next. */
  lemma FilterExactly(source: string, names: Names, ins: Instants, s: State, keep: bool)
    requires Valid(source, names, ins, s) && Can(s, Filter(keep))
    ensures var t := Next(source, names, ins, s, Filter(keep));
            && t.run.Some? && !t.run.value.busy.Free? && Current(t) == Current(s) && t.copies == s.copies && t.committed == s.committed
            && (keep <==> t.run.value.busy.Producing?)
            && (!keep <==> t.run.value.busy.Committing? && !t.run.value.busy.reproduced)
            && t.rejected == s.rejected + (if keep then {} else {Current(s)})
  {
  }

  /** A step rejects a message if and only if the filter refuses it there. */
  lemma RejectedExactly(source: string, names: Names, ins: Instants, s: State, step: Step, m: (nat, nat))
    requires Valid(source, names, ins, s) && Can(s, step)
    ensures m in Next(source, names, ins, s, step).rejected <==> m in s.rejected || Refuses(s, step, m)
  {
    if step.Filter? { FilterExactly(source, names, ins, s, step.keep); }
  }

  ghost predicate Refused(source: string, names: Names, ins: Instants, s: State, steps: seq<Step>, m: (nat, nat))
    requires Playable(source, names, ins, s, steps)
    decreases |steps|
  {
    steps != [] && (Refuses(s, steps[0], m) || Refused(source, names, ins, Next(source, names, ins, s, steps[0]), steps[1..], m))
  }

  /** Over any runs: a message is rejected if and only if a filter refused it. */
  lemma {:induction false} RejectedOnlyByFilter(source: string, names: Names, ins: Instants, s: State, steps: seq<Step>, m: (nat, nat))
    requires Valid(source, names, ins, s) && Playable(source, names, ins, s, steps)
    ensures m in Play(source, names, ins, s, steps).rejected <==> m in s.rejected || Refused(source, names, ins, s, steps, m)
    decreases |steps|
  {
    if steps != [] {
      RejectedExactly(source, names, ins, s, steps[0], m);
      NextKeeps(source, names, ins, s, steps[0]);
      RejectedOnlyByFilter(source, names, ins, Next(source, names, ins, s, steps[0]), steps[1..], m);
    }
  }

  /** Nowhere to send the message: what the caller asked for is blank; or, with nothing asked for, it names no original topic, or the drained one. */
  predicate Nowhere(source: string, o: Options, names: Names, h: HeaderMap) {
    match o.to
    case Some(t) => Blank(t) || t == source
    case None => names.OriginalTopic() !in h || Blank(h[names.OriginalTopic()]) || h[names.OriginalTopic()] == source
  }

  /** A run fails at a message with nowhere to go, at a filter that throws, and at a produce that is not acknowledged; nowhere else. */
  lemma FailsExactly(source: string, names: Names, ins: Instants, s: State, step: Step)
    requires Valid(source, names, ins, s) && Can(s, step) && s.run.Some? && !s.run.value.failed && !step.End?
    ensures var t := Next(source, names, ins, s, step);
            && t.run.Some?
            && (t.run.value.failed <==>
                  || step.Fail?
                  || (step.Deliver? && !s.run.value.aborted &&
                      Nowhere(source, s.run.value.options, names, Log(s, step.partition)[Upto(s.run.value.pos, step.partition)].headers)))
  {
  }

  /** A delivery of a run that goes on: asked about if there is a filter, re-produced at once if there is none, to where it is to go. */
  lemma DeliverExactly(source: string, names: Names, ins: Instants, s: State, p: nat)
    requires Valid(source, names, ins, s) && Can(s, Deliver(p)) && !s.run.value.aborted
    requires !Nowhere(source, s.run.value.options, names, Log(s, p)[Upto(s.run.value.pos, p)].headers)
    ensures var t, o, h := Next(source, names, ins, s, Deliver(p)), s.run.value.options, Log(s, p)[Upto(s.run.value.pos, p)].headers;
            && t.run.Some? && (o.filtered <==> t.run.value.busy == Asking(p))
            && (!o.filtered <==> t.run.value.busy == Producing(p, if o.to.Some? then o.to.value else h[names.OriginalTopic()]))
  {
  }
}
