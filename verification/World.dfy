/**
 * A broker, one consumer group and any number of its members. The broker
 * keeps append-only logs and the group's committed offsets; it assigns and
 * revokes partitions as it likes, also to several members at a time. A
 * member whose process died is one that takes no further step.
 */
module World {
  import opened Basics
  import opened Lanes
  import opened LaneSafety
  import opened Routes
  import opened Headers

  datatype TP = TP(topic: string, partition: nat)

  type Bytes = seq<bv8>

  datatype Rec = Rec(key: Option<Bytes>, value: Option<Bytes>, headers: HeaderMap)

  /** What became of a consumed message. */
  datatype Fate =
    | Processed(at: TP, off: nat)                          // the handler succeeded
    | Copied(at: TP, off: nat, to: TP, toOff: nat)         // an acknowledged copy

  /** A message whose offset a transaction committed while activation `run` of `member` still had to say what became of it. */
  datatype Taken = Taken(at: TP, off: nat, member: nat, run: nat)

  datatype Config = Config(routes: Table, delays: seq<nat>, names: Names, ins: Instants)

  datatype Member = Member(running: bool, abandoned: bool, left: bool)

  datatype Key = Key(member: nat, tp: TP)

  datatype World = World(
    logs: map<TP, seq<Rec>>,
    init: map<TP, nat>,         // where the group starts on a partition it never committed
    committed: map<TP, nat>,
    ever: set<(TP, nat)>,       // every offset that was ever committed
    fates: set<Fate>,
    taken: set<Taken>,
    members: map<nat, Member>,
    lanes: map<Key, Lane>)
  {
    function Log(tp: TP): seq<Rec> { if tp in logs then logs[tp] else [] }
    function Init(tp: TP): nat { if tp in init then init[tp] else 0 }
    function LaneOf(k: Key): Lane { if k in lanes then lanes[k] else UNASSIGNED }
    function Settled(tp: TP): set<nat> { set f | f in fates && f.at == tp :: f.off }

    /** Settled, or taken along by a transaction. */
    function Accounted(tp: TP): set<nat> { Settled(tp) + (set t | t in taken && t.at == tp :: t.off) }
  }

  /**
   * What the environment decides about a hop: whether the failure is one of
   * decoding, what the retry predicate says about any other, the partition,
   * and what the hop learns.
   */
  datatype HopChoice = HopChoice(undecodable: bool, accepted: bool, partition: nat, input: HopInput)
  {
    predicate WantsRetry() { !undecodable && accepted }
  }

  datatype Act =
    | Append(tp: TP, rec: Rec)                     // anyone produces
    | Join(member: nat)                            // a member starts running
    | At(key: Key, event: Event, hop: HopChoice)   // one step on one partition of one member
    | Stop(member: nat)                            // stop() begins
    | Leave(member: nat)                           // shutdown gives up on what still runs, and leaves the group

  // ----------------------------------------------------------- the ladder

  ghost function KindOf(c: Config, topic: string): Kind
    requires topic in c.routes
  {
    if o :| o in c.routes[topic].owners && c.routes[topic].owners[o].kind.Batch? then c.routes[topic].owners[o].kind else Each
  }

  function Block(c: Config, topic: string, rec: Rec): Option<RetryInfo>
    requires topic in c.routes
  {
    BlockAt(rec.headers, c.names, c.ins, c.routes[topic].level)
  }

  /** The subscription `process` finds for a record. */
  function Owner(c: Config, topic: string, rec: Rec): Option<Subscription>
    requires topic in c.routes
  {
    var block := Block(c, topic, rec);
    OwnerOf(c.routes[topic], if block.Some? then Some(block.value.originalTopic) else None)
  }

  /** Where a failed message goes: the next retry level, else the DLQ, else nowhere. */
  ghost function Destination(c: Config, topic: string, rec: Rec, wantsRetry: bool): Option<string>
    requires topic in c.routes
  {
    var route := c.routes[topic];
    match Owner(c, topic, rec)
    case Some(s) =>
      var retryTopic := s.plan.RetryTopic(route.level + 1);
      if wantsRetry && retryTopic.Some? then retryTopic else s.plan.dlq
    case None =>
      // A message on a shared topic that names no subscription: the owners' DLQ, if it is one.
      if d: string :| forall o :: o in route.owners ==> route.owners[o].plan.dlq == Some(d) then Some(d) else None
  }

  /** Wherever it failed, the message has nowhere to go: its consumer stops over it. */
  ghost predicate Stranded(c: Config, topic: string, rec: Rec)
    requires topic in c.routes
  {
    forall wantsRetry :: Destination(c, topic, rec, wantsRetry).None?
  }

  /** The offsets of the partition's stranded messages. */
  ghost function Dead(c: Config, w: World, tp: TP): set<nat> {
    set off: nat | off < |w.Log(tp)| && tp.topic in c.routes && Stranded(c, tp.topic, w.Log(tp)[off])
  }

  /** The original bytes, under the headers this hop writes. */
  ghost function HopRecord(c: Config, topic: string, rec: Rec, choice: HopChoice): Rec
    requires topic in c.routes
  {
    var i := choice.input;
    var tracking := match Owner(c, topic, rec)
      case Some(s) =>
        var t := WriteRetryInfo(rec.headers, c.names, c.ins, Block(c, topic, rec), s.plan.original, i.error, i.now);
        if choice.WantsRetry() && s.plan.RetryTopic(c.routes[topic].level + 1).Some? then t
        else t[c.names.DeadLetteredAt() := c.ins.iso(i.now)]
      case None => rec.headers[c.names.LastError() := i.error][c.names.DeadLetteredAt() := c.ins.iso(i.now)];
    Rec(rec.key, rec.value, Outgoing(tracking, c.names, c.ins, i))
  }

  // ------------------------------------------------------------ the steps

  /** The message a hop forwards. */
  function Forwarded(w: World, k: Key, e: Event): nat
    requires e.HopAcked? && CanHop(w.LaneOf(k), e.id)
  {
    Hopping(w.LaneOf(k), e.id)
  }

  ghost predicate CanAct(c: Config, w: World, k: Key, e: Event, hop: HopChoice) {
    && k.member in w.members && k.tp.topic in c.routes
    && Enabled(KindOf(c, k.tp.topic), w.members[k.member].running, |w.Log(k.tp)|, w.LaneOf(k), e)
    && (forall id :: id in w.LaneOf(k).tasks && w.LaneOf(k).tasks[id].Run? ==> w.LaneOf(k).tasks[id].items != [])
    && match e
       case Assign(start) => ((k.tp, start) in w.ever || start == w.Init(k.tp)) && !w.members[k.member].left
       case Deliver(how) =>
         var off := w.LaneOf(k).next.value;
         && (how.Unroutable? <==> Owner(c, k.tp.topic, w.Log(k.tp)[off]).None?)
         && (how.Hold? || how.Park? ==> c.routes[k.tp.topic].delay > 0)
       case HopAcked(id) =>
         var off := Forwarded(w, k, e);
         off < |w.Log(k.tp)| && Destination(c, k.tp.topic, w.Log(k.tp)[off], hop.WantsRetry()).Some?
       case TransactionBegin(id) => !w.members[k.member].left
       case _ => true
  }

  ghost predicate Can(c: Config, w: World, a: Act) {
    match a
    case Append(tp, rec) => true
    case Join(m) => m !in w.members
    case At(k, e, hop) => CanAct(c, w, k, e, hop)
    case Stop(m) => m in w.members && w.members[m].running
    case Leave(m) => m in w.members && !w.members[m].running && !w.members[m].left
  }

  function Appended(w: World, tp: TP, rec: Rec): World { w.(logs := w.logs[tp := w.Log(tp) + [rec]]) }

  /** Every partition of a stopping member: batches and parked messages are discarded. */
  function StopMember(w: World, m: nat): World
    requires m in w.members
  {
    w.(members := w.members[m := w.members[m].(running := false)],
       lanes := map k | k in w.lanes :: if k.member == m then Stopped(w.lanes[k]) else w.lanes[k])
  }

  function Committed(w: World, tp: TP, c: Option<nat>): World {
    if c.Some? then w.(committed := w.committed[tp := c.value], ever := w.ever + {(tp, c.value)}) else w
  }

  ghost function HopTo(c: Config, w: World, k: Key, e: Event, hop: HopChoice): TP
    requires CanAct(c, w, k, e, hop) && e.HopAcked?
  {
    TP(Destination(c, k.tp.topic, w.Log(k.tp)[Forwarded(w, k, e)], hop.WantsRetry()).value, hop.partition)
  }

  /** What a committing transaction takes along. */
  function TakenBy(w: World, k: Key, e: Event, takes: seq<nat>): set<Taken> {
    if e.TransactionCommit? && e.id in w.LaneOf(k).tasks && w.LaneOf(k).tasks[e.id].Transaction?
    then set x | x in takes :: Taken(k.tp, x, k.member, w.LaneOf(k).tasks[e.id].run)
    else {}
  }

  /** The records and fates a step leaves with the broker. */
  ghost function Recorded(c: Config, w: World, k: Key, e: Event, hop: HopChoice, r: Result): World
    requires CanAct(c, w, k, e, hop)
  {
    if e.HopAcked? then
      var off, to := Forwarded(w, k, e), HopTo(c, w, k, e, hop);
      Appended(w, to, HopRecord(c, k.tp.topic, w.Log(k.tp)[off], hop))
        .(fates := w.fates + {Copied(k.tp, off, to, |w.Log(to)|)})
    else w.(fates := w.fates + (set x | x in r.settles :: Processed(k.tp, x)), taken := w.taken + TakenBy(w, k, e, r.takes))
  }

  ghost function StepAt(c: Config, w: World, k: Key, e: Event, hop: HopChoice): Result
    requires CanAct(c, w, k, e, hop)
  {
    Step(KindOf(c, k.tp.topic), w.members[k.member].running, w.members[k.member].abandoned, |w.Log(k.tp)|, w.LaneOf(k), e)
  }

  /** The broker's side of a step: outcomes recorded, an offset committed. */
  ghost function BrokerAfter(c: Config, w: World, k: Key, e: Event, hop: HopChoice): World
    requires CanAct(c, w, k, e, hop)
  {
    var r := StepAt(c, w, k, e, hop);
    Committed(Recorded(c, w, k, e, hop, r), k.tp, r.commit)
  }

  /** The member's side: its lane moves on, and a stop it begins takes all its lanes. */
  function Moved(w: World, k: Key, r: Result): World
    requires k.member in w.members
  {
    var w' := w.(lanes := w.lanes[k := r.lane]);
    if r.stop then StopMember(w', k.member) else w'
  }

  ghost function Acted(c: Config, w: World, k: Key, e: Event, hop: HopChoice): World
    requires CanAct(c, w, k, e, hop)
  {
    Moved(BrokerAfter(c, w, k, e, hop), k, StepAt(c, w, k, e, hop))
  }

  /** Whether an activation of the member still runs: what shutdown abandons. */
  ghost predicate Busy(w: World, m: nat) {
    exists k, id :: k in w.lanes && k.member == m && id in w.lanes[k].tasks && w.lanes[k].tasks[id].Run?
  }

  ghost function Next(c: Config, w: World, a: Act): World
    requires Can(c, w, a)
  {
    match a
    case Append(tp, rec) => Appended(w, tp, rec)
    case Join(m) => w.(members := w.members[m := Member(true, false, false)])
    case At(k, e, hop) => Acted(c, w, k, e, hop)
    case Stop(m) => StopMember(w, m)
    case Leave(m) => w.(members := w.members[m := Member(false, Busy(w, m), true)])
  }
}
