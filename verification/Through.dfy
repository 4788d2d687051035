/** What can be seen through: from every state a delivery can be in, the steps that bring it to its commit. */
module Through {
  import opened Basics
  import opened Lanes
  import opened LaneSafety

  // ---------------------------------------------------------- runs of a lane

  /** Steps of one partition of a running member, none of which makes it stop. */
  ghost predicate Goes(k: Kind, high: nat, l: Lane, es: seq<Event>)
    decreases |es|
  {
    es != [] ==>
      && Enabled(k, true, high, l, es[0]) && RunsHaveItems(l)
      && !Step(k, true, false, high, l, es[0]).stop
      && Goes(k, high, Step(k, true, false, high, l, es[0]).lane, es[1..])
  }

  /** Where they lead, what they settle, and what they commit. */
  datatype Trace = Trace(lane: Lane, settled: seq<nat>, commits: seq<nat>)

  function Offset(c: Option<nat>): seq<nat> { if c.Some? then [c.value] else [] }

  ghost function Ends(k: Kind, high: nat, l: Lane, es: seq<Event>): Trace
    requires Goes(k, high, l, es)
    decreases |es|
  {
    if es == [] then Trace(l, [], [])
    else
      var r := Step(k, true, false, high, l, es[0]);
      var rest := Ends(k, high, r.lane, es[1..]);
      Trace(rest.lane, r.settles + rest.settled, Offset(r.commit) + rest.commits)
  }

  /** The steps can be taken, and lead there. */
  ghost predicate Leads(k: Kind, high: nat, l: Lane, es: seq<Event>, t: Trace) {
    Goes(k, high, l, es) && Ends(k, high, l, es) == t
  }

  ghost predicate Does(k: Kind, high: nat, l: Lane, e: Event, r: Result) {
    Enabled(k, true, high, l, e) && RunsHaveItems(l) && Step(k, true, false, high, l, e) == r && !r.stop
  }

  /** One step, and whatever goes on from where it leads. */
  lemma Then(k: Kind, high: nat, l: Lane, e: Event, r: Result, rest: seq<Event>, t: Trace)
    requires Does(k, high, l, e, r) && Leads(k, high, r.lane, rest, t)
    ensures Leads(k, high, l, [e] + rest, Trace(t.lane, r.settles + t.settled, Offset(r.commit) + t.commits))
  {
    assert ([e] + rest)[1..] == rest;
  }

  /** A step that settles nothing and commits nothing. */
  lemma ThenOn(k: Kind, high: nat, l: Lane, e: Event, l1: Lane, rest: seq<Event>, t: Trace)
    requires Does(k, high, l, e, Quiet(l1)) && Leads(k, high, l1, rest, t)
    ensures Leads(k, high, l, [e] + rest, t)
  {
    Then(k, high, l, e, Quiet(l1), rest, t);
    assert [] + t.settled == t.settled && [] + t.commits == t.commits;
  }

  /** A step that settles something and commits nothing. */
  lemma ThenSettling(k: Kind, high: nat, l: Lane, e: Event, l1: Lane, settles: seq<nat>, rest: seq<Event>, t: Trace)
    requires Does(k, high, l, e, Settling(l1, settles)) && Leads(k, high, l1, rest, t)
    ensures Leads(k, high, l, [e] + rest, t.(settled := settles + t.settled))
  {
    Then(k, high, l, e, Settling(l1, settles), rest, t);
    assert [] + t.commits == t.commits;
  }

  lemma {:induction false} NoneChosen(s: seq<nat>)
    ensures Select(s, {}, false) == s && Select(s, {}, true) == []
  {
    if s != [] { NoneChosen(s[1..]); }
  }

  // ------------------------------------------------------------ one activation

  /** An activation that has its messages and has done nothing with them yet. */
  predicate Begins(l: Lane, id: nat) {
    id in l.tasks && l.tasks[id].Run? && l.tasks[id].stage.Decoding? && l.tasks[id].items != []
  }

  /** The same activation, further on. */
  function Further(l: Lane, id: nat, stage: Stage, handled: seq<nat>, forwarded: seq<nat>): Lane
    requires id in l.tasks && l.tasks[id].Run?
  {
    l.(tasks := l.tasks[id := l.tasks[id].(stage := stage, handled := handled, forwarded := forwarded)])
  }

  /** The lane once the activation is over. */
  function Over(l: Lane, id: nat): Lane
    requires id in l.tasks && l.tasks[id].Run? && l.tasks[id].items != []
  {
    FinishRun(l, id, l.tasks[id])
  }

  lemma FurtherOver(l: Lane, id: nat, stage: Stage, handled: seq<nat>, forwarded: seq<nat>)
    requires id in l.tasks && l.tasks[id].Run? && l.tasks[id].items != []
    ensures Over(Further(l, id, stage, handled, forwarded), id) == Over(l, id)
  {
    var f := Further(l, id, stage, handled, forwarded);
    assert f.tasks - {id} == l.tasks - {id};
    assert f.tasks[id := Closing(l.tasks[id].items[0].epoch)] == l.tasks[id := Closing(l.tasks[id].items[0].epoch)];
  }

  /** What an activation does that succeeds, and what follows. */
  function Succeeding(id: nat, rest: seq<Event>): seq<Event> {
    [Decode(id, {})] + ([Handler(id, Resolved)] + ([CommitDone(id, true)] + rest))
  }

  /** Decoded as a whole. */
  lemma AllDecode(k: Kind, high: nat, l: Lane, id: nat)
    requires Begins(l, id) && RunsHaveItems(l)
    ensures var t := l.tasks[id];
            Does(k, high, l, Decode(id, {}), Quiet(Further(l, id, Handling(Offs(t.items)), t.handled, t.forwarded)))
  {
    NoneChosen(Offs(l.tasks[id].items));
    assert Offs(l.tasks[id].items) != [];
  }

  lemma DecodeGoes(k: Kind, high: nat, l: Lane, id: nat, es: seq<Event>, t: Trace)
    requires Begins(l, id) && RunsHaveItems(l)
    requires var mine := l.tasks[id]; Leads(k, high, Further(l, id, Handling(Offs(mine.items)), mine.handled, mine.forwarded), es, t)
    ensures Leads(k, high, l, [Decode(id, {})] + es, t)
  {
    var mine := l.tasks[id];
    AllDecode(k, high, l, id);
    ThenOn(k, high, l, Decode(id, {}), Further(l, id, Handling(Offs(mine.items)), mine.handled, mine.forwarded), es, t);
  }

  /** The last step: the commit lands behind the activation's last message. */
  lemma CommitGoes(k: Kind, high: nat, l: Lane, id: nat, rest: seq<Event>, t: Trace)
    requires id in l.tasks && l.tasks[id].Run? && l.tasks[id].stage.Committing? && RunsHaveItems(l)
    requires Leads(k, high, Over(l, id), rest, t)
    ensures Leads(k, high, l, [CommitDone(id, true)] + rest, Trace(t.lane, t.settled, [Last(l.tasks[id].items) + 1] + t.commits))
  {
    Then(k, high, l, CommitDone(id, true), Result(Over(l, id), [], [], Some(Last(l.tasks[id].items) + 1), false), rest, t);
  }

  lemma ResolvedGoes(k: Kind, high: nat, l: Lane, id: nat, rest: seq<Event>, t: Trace)
    requires id in l.tasks && l.tasks[id].Run? && l.tasks[id].stage.Handling? && RunsHaveItems(l)
    requires Leads(k, high, Over(l, id), rest, t)
    ensures Leads(k, high, l, [Handler(id, Resolved)] + ([CommitDone(id, true)] + rest),
                  Trace(t.lane, l.tasks[id].stage.decoded + t.settled, [Last(l.tasks[id].items) + 1] + t.commits))
  {
    var mine := l.tasks[id];
    var l1 := Further(l, id, Committing, mine.handled + mine.stage.decoded, mine.forwarded);
    FurtherOver(l, id, Committing, mine.handled + mine.stage.decoded, mine.forwarded);
    var u := Trace(t.lane, t.settled, [Last(mine.items) + 1] + t.commits);
    CommitGoes(k, high, l1, id, rest, t);
    ThenSettling(k, high, l, Handler(id, Resolved), l1, mine.stage.decoded, [CommitDone(id, true)] + rest, u);
  }

  /** Decoded, handled and committed: all its messages are settled, and the offset behind them is committed. */
  lemma SuccessGoesThrough(k: Kind, high: nat, l: Lane, id: nat, rest: seq<Event>, t: Trace)
    requires Begins(l, id) && RunsHaveItems(l) && Leads(k, high, Over(l, id), rest, t)
    ensures Leads(k, high, l, Succeeding(id, rest),
                  Trace(t.lane, Offs(l.tasks[id].items) + t.settled, [Last(l.tasks[id].items) + 1] + t.commits))
  {
    var mine := l.tasks[id];
    var l1 := Further(l, id, Handling(Offs(mine.items)), mine.handled, mine.forwarded);
    FurtherOver(l, id, Handling(Offs(mine.items)), mine.handled, mine.forwarded);
    ResolvedGoes(k, high, l1, id, rest, t);
    var es := [Handler(id, Resolved)] + ([CommitDone(id, true)] + rest);
    var u := Trace(t.lane, Offs(mine.items) + t.settled, [Last(mine.items) + 1] + t.commits);
    DecodeGoes(k, high, l, id, es, u);
  }

  // ---------------------------------------------------- one that fails

  /** What an activation does whose handler throws: it forwards what it was given, one by one. */
  function Failing(id: nat, n: nat, rest: seq<Event>): seq<Event> {
    [Decode(id, {})] + ([Handler(id, Threw)] + Hops(id, n, rest))
  }

  function Hops(id: nat, n: nat, rest: seq<Event>): seq<Event> {
    if n == 0 then [CommitDone(id, true)] + rest else [HopAcked(id)] + Hops(id, n - 1, rest)
  }

  lemma HopDoes(k: Kind, high: nat, l: Lane, id: nat, left: seq<nat>)
    requires id in l.tasks && l.tasks[id].Run? && l.tasks[id].stage == Forwarding(left) && left != [] && RunsHaveItems(l)
    ensures Does(k, high, l, HopAcked(id), Settling(Hopped(l, id, left), [left[0]]))
  {
  }

  function Hopped(l: Lane, id: nat, left: seq<nat>): Lane
    requires id in l.tasks && l.tasks[id].Run? && left != []
  {
    Further(l, id, if left[1..] == [] then Committing else Forwarding(left[1..]), l.tasks[id].handled, l.tasks[id].forwarded + [left[0]])
  }

  lemma HopGoes(k: Kind, high: nat, l: Lane, id: nat, left: seq<nat>, es: seq<Event>, t: Trace, after: seq<nat>)
    requires id in l.tasks && l.tasks[id].Run? && l.tasks[id].stage == Forwarding(left) && left != [] && RunsHaveItems(l)
    requires Leads(k, high, Hopped(l, id, left), es, t) && t.settled == left[1..] + after
    ensures Leads(k, high, l, [HopAcked(id)] + es, t.(settled := left + after))
  {
    HopDoes(k, high, l, id, left);
    ThenSettling(k, high, l, HopAcked(id), Hopped(l, id, left), [left[0]], es, t);
    assert [left[0]] + (left[1..] + after) == left + after;
  }

  lemma {:induction false} HopsGo(k: Kind, high: nat, l: Lane, id: nat, left: seq<nat>, rest: seq<Event>, t: Trace)
    requires id in l.tasks && l.tasks[id].Run? && RunsHaveItems(l)
    requires l.tasks[id].stage == if left == [] then Committing else Forwarding(left)
    requires Leads(k, high, Over(l, id), rest, t)
    ensures Leads(k, high, l, Hops(id, |left|, rest), Trace(t.lane, left + t.settled, [Last(l.tasks[id].items) + 1] + t.commits))
    decreases |left|
  {
    if left == [] {
      CommitGoes(k, high, l, id, rest, t);
      assert left + t.settled == t.settled;
    } else {
      HoppedOver(l, id, left);
      HopsGo(k, high, Hopped(l, id, left), id, left[1..], rest, t);
      var u := Trace(t.lane, left[1..] + t.settled, [Last(l.tasks[id].items) + 1] + t.commits);
      HopGoes(k, high, l, id, left, Hops(id, |left| - 1, rest), u, t.settled);
    }
  }

  lemma HoppedOver(l: Lane, id: nat, left: seq<nat>)
    requires id in l.tasks && l.tasks[id].Run? && l.tasks[id].items != [] && left != [] && RunsHaveItems(l)
    ensures var h := Hopped(l, id, left);
            && RunsHaveItems(h) && h.tasks[id].items == l.tasks[id].items && Over(h, id) == Over(l, id)
            && h.tasks[id].stage == if left[1..] == [] then Committing else Forwarding(left[1..])
  {
    FurtherOver(l, id, if left[1..] == [] then Committing else Forwarding(left[1..]), l.tasks[id].handled, l.tasks[id].forwarded + [left[0]]);
  }

  lemma ThrewGoes(k: Kind, high: nat, l: Lane, id: nat, rest: seq<Event>, t: Trace)
    requires id in l.tasks && l.tasks[id].Run? && l.tasks[id].stage.Handling? && l.tasks[id].stage.decoded != [] && RunsHaveItems(l)
    requires Leads(k, high, Over(l, id), rest, t)
    ensures var decoded := l.tasks[id].stage.decoded;
            Leads(k, high, l, [Handler(id, Threw)] + Hops(id, |decoded|, rest),
                  Trace(t.lane, decoded + t.settled, [Last(l.tasks[id].items) + 1] + t.commits))
  {
    var mine := l.tasks[id];
    var decoded := mine.stage.decoded;
    var l1 := Further(l, id, Forwarding(decoded), mine.handled, mine.forwarded);
    FurtherOver(l, id, Forwarding(decoded), mine.handled, mine.forwarded);
    var u := Trace(t.lane, decoded + t.settled, [Last(mine.items) + 1] + t.commits);
    HopsGo(k, high, l1, id, decoded, rest, t);
    ThenOn(k, high, l, Handler(id, Threw), l1, Hops(id, |decoded|, rest), u);
  }

  /** Its handler throws and every hop is acknowledged: all its messages are settled, and the offset behind them is committed. */
  lemma FailureGoesThrough(k: Kind, high: nat, l: Lane, id: nat, rest: seq<Event>, t: Trace)
    requires Begins(l, id) && RunsHaveItems(l) && Leads(k, high, Over(l, id), rest, t)
    ensures Leads(k, high, l, Failing(id, |l.tasks[id].items|, rest),
                  Trace(t.lane, Offs(l.tasks[id].items) + t.settled, [Last(l.tasks[id].items) + 1] + t.commits))
  {
    var mine := l.tasks[id];
    var l1 := Further(l, id, Handling(Offs(mine.items)), mine.handled, mine.forwarded);
    FurtherOver(l, id, Handling(Offs(mine.items)), mine.handled, mine.forwarded);
    ThrewGoes(k, high, l1, id, rest, t);
    var es := [Handler(id, Threw)] + Hops(id, |mine.items|, rest);
    var u := Trace(t.lane, Offs(mine.items) + t.settled, [Last(mine.items) + 1] + t.commits);
    DecodeGoes(k, high, l, id, es, u);
  }

  // ------------------------------------------------------------ whole deliveries

  /** The next activation's name is new to the lane. */
  ghost predicate NewId(l: Lane) {
    RunsHaveItems(l) && l.nextId !in l.tasks && l.run != Some(l.nextId)
  }

  /** What an activation does until its commit, whether its handler is done or throws. */
  function Ending(fails: bool, id: nat, n: nat, rest: seq<Event>): seq<Event> {
    if fails then Failing(id, n, rest) else Succeeding(id, rest)
  }

  lemma ActivationGoesThrough(k: Kind, high: nat, l: Lane, id: nat, fails: bool, rest: seq<Event>, t: Trace)
    requires Begins(l, id) && RunsHaveItems(l) && Leads(k, high, Over(l, id), rest, t)
    ensures Leads(k, high, l, Ending(fails, id, |l.tasks[id].items|, rest),
                  Trace(t.lane, Offs(l.tasks[id].items) + t.settled, [Last(l.tasks[id].items) + 1] + t.commits))
  {
    if fails { FailureGoesThrough(k, high, l, id, rest, t); } else { SuccessGoesThrough(k, high, l, id, rest, t); }
  }

  /** The lane behind a message that was delivered and seen through. */
  function Behind(l: Lane): Lane
    requires l.next.Some?
  {
    l.(next := Some(l.next.value + 1), nextId := l.nextId + 1, front := None)
  }

  /** The lane with this message's activation at the front. */
  function With(l: Lane, t: Task): Lane
    requires l.next.Some?
  {
    Behind(l).(front := Some(l.nextId), tasks := l.tasks[l.nextId := t])
  }

  lemma LeadsNowhere(k: Kind, high: nat, l: Lane)
    ensures Leads(k, high, l, [], Trace(l, [], []))
  {
  }

  /** With nothing to follow. */
  lemma ActivationEnds(k: Kind, high: nat, l: Lane, id: nat, fails: bool)
    requires Begins(l, id) && RunsHaveItems(l)
    ensures var items := l.tasks[id].items;
            Leads(k, high, l, Ending(fails, id, |items|, []), Trace(Over(l, id), Offs(items), [Last(items) + 1]))
  {
    var items := l.tasks[id].items;
    LeadsNowhere(k, high, Over(l, id));
    ActivationGoesThrough(k, high, l, id, fails, [], Trace(Over(l, id), [], []));
    NothingMore(Offs(items));
    NothingMore([Last(items) + 1]);
  }

  lemma NothingMore(s: seq<nat>)
    ensures s + [] == s
  {
  }

  /** The one run of a topic handled message by message. */
  function SoleRun(l: Lane, origin: Origin): Task
    requires l.next.Some?
  {
    NewRun([Item(l.next.value, l.epoch)], origin)
  }

  lemma SoleOver(l: Lane)
    requires NewId(l) && l.next.Some?
    ensures var at := With(l, SoleRun(l, Delivery));
            Begins(at, l.nextId) && RunsHaveItems(at) && Over(at, l.nextId) == Behind(l)
  {
    assert l.tasks[l.nextId := SoleRun(l, Delivery)] - {l.nextId} == l.tasks;
  }

  lemma SoleGoes(high: nat, l: Lane, fails: bool)
    requires NewId(l) && l.next.Some?
    ensures var at := With(l, SoleRun(l, Delivery));
            Leads(Each, high, at, Ending(fails, l.nextId, 1, []), Trace(Behind(l), [l.next.value], [l.next.value + 1]))
  {
    var at := With(l, SoleRun(l, Delivery));
    SoleOver(l);
    ActivationEnds(Each, high, at, l.nextId, fails);
    assert Offs(at.tasks[l.nextId].items) == [l.next.value];
  }

  /** Handled at once. */
  lemma NowGoesThrough(high: nat, l: Lane, fails: bool)
    requires Enabled(Each, true, high, l, Deliver(Now)) && NewId(l)
    ensures Leads(Each, high, l, [Deliver(Now)] + Ending(fails, l.nextId, 1, []), Trace(Behind(l), [l.next.value], [l.next.value + 1]))
  {
    var at := With(l, SoleRun(l, Delivery));
    SoleGoes(high, l, fails);
    ThenOn(Each, high, l, Deliver(Now), at, Ending(fails, l.nextId, 1, []), Trace(Behind(l), [l.next.value], [l.next.value + 1]));
  }

  lemma HeldDoes(high: nat, l: Lane)
    requires Enabled(Each, true, high, l, Deliver(Hold)) && NewId(l)
    requires l.parked.Some? ==> l.parked.value !in l.tasks && l.parked.value != l.nextId
    ensures Does(Each, high, l, Deliver(Hold), Quiet(With(l, Waiting(l.next.value, l.epoch, l.parked))))
    ensures Does(Each, high, With(l, Waiting(l.next.value, l.epoch, l.parked)), Wake(l.nextId), Quiet(With(l, SoleRun(l, Delivery))))
  {
  }

  /** Held in its delivery until it is due. */
  lemma HeldGoesThrough(high: nat, l: Lane, fails: bool)
    requires Enabled(Each, true, high, l, Deliver(Hold)) && NewId(l)
    requires l.parked.Some? ==> l.parked.value !in l.tasks && l.parked.value != l.nextId
    ensures Leads(Each, high, l, [Deliver(Hold)] + ([Wake(l.nextId)] + Ending(fails, l.nextId, 1, [])),
                  Trace(Behind(l), [l.next.value], [l.next.value + 1]))
  {
    var held := With(l, Waiting(l.next.value, l.epoch, l.parked));
    var t := Trace(Behind(l), [l.next.value], [l.next.value + 1]);
    SoleGoes(high, l, fails);
    HeldDoes(high, l);
    ThenOn(Each, high, held, Wake(l.nextId), With(l, SoleRun(l, Delivery)), Ending(fails, l.nextId, 1, []), t);
    ThenOn(Each, high, l, Deliver(Hold), held, [Wake(l.nextId)] + Ending(fails, l.nextId, 1, []), t);
  }

  /** The lane with a chain of this message's, the partition paused for it. */
  function Chained(l: Lane, t: Task): Lane
    requires l.next.Some?
  {
    With(l, t).(paused := true, parked := if t.Parked? then Some(l.nextId) else None)
  }

  function Due(l: Lane, granted: bool): Task
    requires l.next.Some?
  {
    Parked(l.next.value, l.epoch, granted, false)
  }

  lemma ParkedDoes(high: nat, l: Lane)
    requires Enabled(Each, true, high, l, Deliver(Park)) && NewId(l)
    ensures Does(Each, high, l, Deliver(Park), Quiet(Chained(l, Due(l, false))))
    ensures Does(Each, high, Chained(l, Due(l, false)), Grant(l.nextId), Quiet(Chained(l, Due(l, true))))
  {
  }

  lemma ReEntersDoes(high: nat, l: Lane)
    requires Enabled(Each, true, high, l, Deliver(Park)) && NewId(l)
    ensures Does(Each, high, Chained(l, Due(l, true)), ReEnter(l.nextId), Quiet(Chained(l, SoleRun(l, Chain))))
  {
  }

  lemma ResumesDoes(high: nat, l: Lane)
    requires Enabled(Each, true, high, l, Deliver(Park)) && NewId(l)
    ensures var at := Chained(l, SoleRun(l, Chain));
            && Begins(at, l.nextId) && RunsHaveItems(at)
            && Does(Each, high, Over(at, l.nextId), Resume(l.nextId), Quiet(Behind(l)))
  {
    var over := Over(Chained(l, SoleRun(l, Chain)), l.nextId);
    assert over.tasks - {l.nextId} == l.tasks;
  }

  lemma ChainGoes(high: nat, l: Lane, fails: bool)
    requires Enabled(Each, true, high, l, Deliver(Park)) && NewId(l)
    ensures Leads(Each, high, Chained(l, SoleRun(l, Chain)), Ending(fails, l.nextId, 1, [Resume(l.nextId)] + []),
                  Trace(Behind(l), [l.next.value], [l.next.value + 1]))
  {
    var at := Chained(l, SoleRun(l, Chain));
    ResumesDoes(high, l);
    LeadsNowhere(Each, high, Behind(l));
    ThenOn(Each, high, Over(at, l.nextId), Resume(l.nextId), Behind(l), [], Trace(Behind(l), [], []));
    ActivationGoesThrough(Each, high, at, l.nextId, fails, [Resume(l.nextId)] + [], Trace(Behind(l), [], []));
    assert Offs(at.tasks[l.nextId].items) == [l.next.value];
    NothingMore([l.next.value]);
    NothingMore([l.next.value + 1]);
  }

  /** Parked until it is due, with the partition paused meanwhile: it flows again afterwards. */
  lemma ParkedGoesThrough(high: nat, l: Lane, fails: bool)
    requires Enabled(Each, true, high, l, Deliver(Park)) && NewId(l)
    ensures var id := l.nextId;
            Leads(Each, high, l, [Deliver(Park)] + ([Grant(id)] + ([ReEnter(id)] + Ending(fails, id, 1, [Resume(id)] + []))),
                  Trace(Behind(l), [l.next.value], [l.next.value + 1]))
  {
    var id, t := l.nextId, Trace(Behind(l), [l.next.value], [l.next.value + 1]);
    var end := Ending(fails, id, 1, [Resume(id)] + []);
    ChainGoes(high, l, fails);
    ReEntersDoes(high, l);
    ThenOn(Each, high, Chained(l, Due(l, true)), ReEnter(id), Chained(l, SoleRun(l, Chain)), end, t);
    ParkedDoes(high, l);
    ThenOn(Each, high, Chained(l, Due(l, false)), Grant(id), Chained(l, Due(l, true)), [ReEnter(id)] + end, t);
    ThenOn(Each, high, l, Deliver(Park), Chained(l, Due(l, false)), [Grant(id)] + ([ReEnter(id)] + end), t);
  }

  // --------------------------------------------------------- nobody's message

  lemma NobodysDoes(high: nat, l: Lane)
    requires Enabled(Each, true, high, l, Deliver(Unroutable)) && NewId(l)
    ensures var off := l.next.value;
            var items := [Item(off, l.epoch)];
            && Does(Each, high, l, Deliver(Unroutable), Quiet(With(l, Run(items, Delivery, true, Salvaging([off], []), [], []))))
            && Does(Each, high, With(l, Run(items, Delivery, true, Salvaging([off], []), [], [])), HopAcked(l.nextId),
                    Settling(With(l, Run(items, Delivery, true, Committing, [], [off])), [off]))
  {
    assert [] + [l.next.value] == [l.next.value];
  }

  /** A message of no subscription goes to the DLQ, and then it is committed like any other. */
  lemma NobodysGoesThrough(high: nat, l: Lane)
    requires Enabled(Each, true, high, l, Deliver(Unroutable)) && NewId(l)
    ensures var id := l.nextId;
            Leads(Each, high, l, [Deliver(Unroutable)] + ([HopAcked(id)] + ([CommitDone(id, true)] + [])),
                  Trace(Behind(l), [l.next.value], [l.next.value + 1]))
  {
    var id, off := l.nextId, l.next.value;
    var items := [Item(off, l.epoch)];
    var first := With(l, Run(items, Delivery, true, Salvaging([off], []), [], []));
    var last := With(l, Run(items, Delivery, true, Committing, [], [off]));
    NobodysDoes(high, l);
    assert last.tasks - {id} == l.tasks;
    LeadsNowhere(Each, high, Behind(l));
    CommitGoes(Each, high, last, id, [], Trace(Behind(l), [], []));
    assert [off + 1] + [] == [off + 1];
    ThenSettling(Each, high, first, HopAcked(id), last, [off], [CommitDone(id, true)] + [], Trace(Behind(l), [], [off + 1]));
    assert [off] + [] == [off];
    ThenOn(Each, high, l, Deliver(Unroutable), first, [HopAcked(id)] + ([CommitDone(id, true)] + []), Trace(Behind(l), [off], [off + 1]));
  }

  // ------------------------------------------------------------------ batches

  /** The lane with its batch running as a new activation. */
  function Batched(l: Lane, items: seq<Item>, origin: Origin): Lane {
    l.(batch := [], run := Some(l.nextId), tasks := l.tasks[l.nextId := NewRun(items, origin)], nextId := l.nextId + 1)
  }

  lemma BatchOverIs(l: Lane, items: seq<Item>, origin: Origin)
    requires NewId(l) && items != [] && !origin.Chain?
    ensures var at := Batched(l, items, origin);
            && Begins(at, l.nextId) && RunsHaveItems(at)
            && Over(at, l.nextId) == l.(batch := [], run := None, nextId := l.nextId + 1, front := if l.front == Some(l.nextId) then None else l.front)
  {
    assert Batched(l, items, origin).tasks - {l.nextId} == l.tasks;
  }

  /** A step that starts an activation, which is then seen through. */
  lemma StartGoesThrough(k: Kind, high: nat, l: Lane, e: Event, at: Lane, id: nat, items: seq<Item>, over: Lane, fails: bool)
    requires Does(k, high, l, e, Quiet(at)) && Begins(at, id) && RunsHaveItems(at) && at.tasks[id].items == items && Over(at, id) == over
    ensures Leads(k, high, l, [e] + Ending(fails, id, |items|, []), Trace(over, Offs(items), [Last(items) + 1]))
  {
    ActivationEnds(k, high, at, id, fails);
    ThenOn(k, high, l, e, at, Ending(fails, id, |items|, []), Trace(over, Offs(items), [Last(items) + 1]));
  }

  lemma CollectedDoes(size: nat, high: nat, l: Lane)
    requires NewId(l) && l.batch != [] && l.front != Some(l.nextId)
    ensures Does(Batch(size), high, l, MaxWait, Quiet(Batched(l, l.batch, Flush)))
    ensures var at, over := Batched(l, l.batch, Flush), l.(batch := [], run := None, nextId := l.nextId + 1);
            Begins(at, l.nextId) && RunsHaveItems(at) && Over(at, l.nextId) == over
  {
    BatchOverIs(l, l.batch, Flush);
  }

  /** What was collected runs when the time is up, and all of it is seen through. */
  lemma CollectedGoesThrough(size: nat, high: nat, l: Lane, fails: bool)
    requires NewId(l) && l.batch != [] && l.front != Some(l.nextId)
    ensures Leads(Batch(size), high, l, [MaxWait] + Ending(fails, l.nextId, |l.batch|, []),
                  Trace(l.(batch := [], run := None, nextId := l.nextId + 1), Offs(l.batch), [Last(l.batch) + 1]))
  {
    CollectedDoes(size, high, l);
    StartGoesThrough(Batch(size), high, l, MaxWait, Batched(l, l.batch, Flush), l.nextId, l.batch,
                     l.(batch := [], run := None, nextId := l.nextId + 1), fails);
  }

  lemma FilledDoes(size: nat, high: nat, l: Lane)
    requires Enabled(Batch(size), true, high, l, Deliver(Now)) && NewId(l) && l.run.None? && |l.batch| + 1 == size
    ensures var at := Batched(l.(next := Some(l.next.value + 1), front := Some(l.nextId)), l.batch + [Item(l.next.value, l.epoch)], Delivery);
            && Does(Batch(size), high, l, Deliver(Now), Quiet(at))
            && Begins(at, l.nextId) && RunsHaveItems(at) && Over(at, l.nextId) == Behind(l).(batch := [])
  {
    BatchOverIs(l.(next := Some(l.next.value + 1), front := Some(l.nextId)), l.batch + [Item(l.next.value, l.epoch)], Delivery);
  }

  /** The message that fills a batch runs it, and all of it is seen through. */
  lemma FilledGoesThrough(size: nat, high: nat, l: Lane, fails: bool)
    requires Enabled(Batch(size), true, high, l, Deliver(Now)) && NewId(l) && l.run.None? && |l.batch| + 1 == size
    ensures var items := l.batch + [Item(l.next.value, l.epoch)];
            Leads(Batch(size), high, l, [Deliver(Now)] + Ending(fails, l.nextId, size, []),
                  Trace(Behind(l).(batch := []), Offs(items), [l.next.value + 1]))
  {
    var items := l.batch + [Item(l.next.value, l.epoch)];
    var l0 := l.(next := Some(l.next.value + 1), front := Some(l.nextId));
    FilledDoes(size, high, l);
    StartGoesThrough(Batch(size), high, l, Deliver(Now), Batched(l0, items, Delivery), l.nextId, items, Behind(l).(batch := []), fails);
  }
}
