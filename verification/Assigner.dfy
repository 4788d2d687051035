/** Which group member gets which partition: round-robin over the members subscribed to each topic, with one cursor for all topics. */
module Assigner {
  import opened Basics

  type Shares = map<string, seq<nat>>

  /** A member's subscription, or none when the leader could not read it, which counts as every topic. */
  type Members = map<string, Option<seq<string>>>

  // ------------------------------------------------------------------ order

  /** The order strings are sorted in: by code unit, a prefix first. */
  predicate Below(a: string, b: string) {
    b != [] && (a == [] || a[0] < b[0] || (a[0] == b[0] && Below(a[1..], b[1..])))
  }

  lemma {:induction false} BelowIsOrder(a: string, b: string, c: string)
    ensures !Below(a, a)
    ensures Below(a, b) && Below(b, c) ==> Below(a, c)
    ensures a != b ==> Below(a, b) || Below(b, a)
    decreases |a|
  {
    if a != [] {
      BelowIsOrder(a[1..], if b != [] then b[1..] else [], if c != [] then c[1..] else []);
      if b != [] && a != b && a[0] == b[0] { assert a == [a[0]] + a[1..] && b == [b[0]] + b[1..]; }
    }
  }

  predicate Sorted(s: seq<string>) { forall i, j :: 0 <= i < j < |s| ==> Below(s[i], s[j]) }

  function Insert(s: seq<string>, x: string): seq<string> {
    if s == [] || Below(x, s[0]) then [x] + s
    else if x == s[0] then s
    else [s[0]] + Insert(s[1..], x)
  }

  /** A set's elements in order, from any listing of them. */
  function Sort(listing: seq<string>): seq<string> {
    if listing == [] then [] else Insert(Sort(listing[1..]), listing[0])
  }

  lemma {:induction false} InsertSorts(s: seq<string>, x: string)
    requires Sorted(s)
    ensures Sorted(Insert(s, x))
    ensures forall y :: y in Insert(s, x) <==> y == x || y in s
  {
    if s != [] {
      assert s == [s[0]] + s[1..];
      BelowIsOrder(x, s[0], x);
      InsertSorts(s[1..], x);
      if Below(x, s[0]) {
        forall i | 0 <= i < |s| ensures Below(x, s[i]) { BelowIsOrder(x, s[0], s[i]); }
      } else if x != s[0] {
        var r := Insert(s[1..], x);
        forall i | 0 <= i < |r| ensures Below(s[0], r[i]) { assert r[i] in r; }
      }
    }
  }

  lemma {:induction false} SortSorts(listing: seq<string>)
    ensures Sorted(Sort(listing))
    ensures forall y :: y in Sort(listing) <==> y in listing
  {
    if listing != [] {
      SortSorts(listing[1..]);
      InsertSorts(Sort(listing[1..]), listing[0]);
      assert listing == [listing[0]] + listing[1..];
    }
  }

  lemma FirstIsIn(s: seq<string>)
    ensures s == [] || s[0] in s
  {
  }

  /** There is one order: what a set is listed as does not matter. */
  lemma {:induction false} SortedIsUnique(s: seq<string>, t: seq<string>)
    requires Sorted(s) && Sorted(t) && forall y :: y in s <==> y in t
    ensures s == t
    decreases |s|
  {
    if s == [] {
      FirstIsIn(t);
    } else {
      assert s[0] in s && s[0] in t;
      assert t[0] in t && t[0] in s;
      BelowIsOrder(s[0], t[0], s[0]);
      forall y ensures y in s[1..] <==> y in t[1..] {
        if y in s[1..] { assert y in s; BelowIsOrder(s[0], y, s[0]); }
        if y in t[1..] { assert y in t; BelowIsOrder(s[0], y, s[0]); }
      }
      SortedIsUnique(s[1..], t[1..]);
    }
  }

  // ------------------------------------------------------------ whose turn

  /** The remainder, counted up to. */
  function Rem(a: nat, n: nat): (r: nat)
    requires n > 0
    ensures r < n
  {
    if a == 0 then 0 else if Rem(a - 1, n) + 1 == n then 0 else Rem(a - 1, n) + 1
  }

  /** How often the count came round. */
  function Rounds(a: nat, n: nat): nat
    requires n > 0
  {
    if a == 0 then 0 else Rounds(a - 1, n) + (if Rem(a - 1, n) + 1 == n then 1 else 0)
  }

  lemma {:induction false} RoundsAndRem(a: nat, n: nat)
    requires n > 0
    ensures a == Rounds(a, n) * n + Rem(a, n)
  {
    if a > 0 {
      RoundsAndRem(a - 1, n);
      if Rem(a - 1, n) + 1 == n { OneMoreRound(Rounds(a - 1, n), n); }
    }
  }

  lemma OneMoreRound(q: nat, n: nat)
    ensures (q + 1) * n == q * n + n
  {
  }

  lemma RemIsMod(a: nat, n: nat)
    requires n > 0
    ensures Rem(a, n) == a % n
  {
    RoundsAndRem(a, n);
    ModIs(a, n, Rounds(a, n), Rem(a, n));
  }

  lemma ModIs(a: nat, n: nat, q: nat, r: nat)
    requires n > 0 && r < n && a == q * n + r
    ensures a % n == r
  {
    var d := a / n - q;
    assert d * n == r - a % n by { assert a == (a / n) * n + a % n; }
    MultipleIsFar(d, n);
  }

  lemma MultipleIsFar(d: int, n: nat)
    ensures d >= 1 ==> d * n >= n
    ensures d <= -1 ==> d * n + n <= 0
  {
  }

  /** How many of the turns from `start` on, `count` of them, fall to the i-th of n. */
  function Turns(start: nat, count: nat, n: nat, i: nat): nat
    requires i < n
  {
    if count == 0 then 0 else Turns(start, count - 1, n, i) + (if Rem(start + count - 1, n) == i then 1 else 0)
  }

  /** How many turns after `start` the i-th of n comes first. */
  function Wait(start: nat, n: nat, i: nat): nat
    requires i < n
  {
    if i >= Rem(start, n) then i - Rem(start, n) else i + n - Rem(start, n)
  }

  lemma {:induction false} TurnIsHis(start: nat, d: nat, n: nat, i: nat)
    requires i < n
    ensures Rem(start + d, n) == i <==> Rem(d, n) == Wait(start, n, i)
    ensures Rem(start + d, n) == (if Rem(start, n) + Rem(d, n) < n then Rem(start, n) + Rem(d, n) else Rem(start, n) + Rem(d, n) - n)
  {
    if d > 0 {
      TurnIsHis(start, d - 1, n, i);
      assert start + d - 1 == start + (d - 1);
    }
  }

  lemma {:induction false} TurnsAre(start: nat, count: nat, n: nat, i: nat)
    requires i < n
    ensures Turns(start, count, n, i) == Rounds(count, n) + (if Wait(start, n, i) < Rem(count, n) then 1 else 0)
  {
    if count > 0 {
      TurnsAre(start, count - 1, n, i);
      TurnIsHis(start, count - 1, n, i);
      assert start + count - 1 == start + (count - 1);
    }
  }

  /** Round-robin is fair: nobody is more than one turn ahead. */
  lemma TurnsBalance(start: nat, count: nat, n: nat, i: nat, j: nat)
    requires i < n && j < n
    ensures Turns(start, count, n, i) <= Turns(start, count, n, j) + 1
  {
    TurnsAre(start, count, n, i);
    TurnsAre(start, count, n, j);
  }

  // ------------------------------------------------------------ the shares

  predicate Subscribes(members: Members, m: string, topic: string) {
    m in members && (members[m].None? || topic in members[m].value)
  }

  /** The members subscribed to a topic, in order. */
  function Subscribers(ids: seq<string>, members: Members, topic: string): seq<string> {
    if ids == [] then []
    else
      var rest := Subscribers(ids[1..], members, topic);
      if Subscribes(members, ids[0], topic) then [ids[0]] + rest else rest
  }

  lemma {:induction false} SubscribersAre(ids: seq<string>, members: Members, topic: string)
    ensures forall m :: m in Subscribers(ids, members, topic) <==> m in ids && Subscribes(members, m, topic)
  {
    if ids != [] {
      SubscribersAre(ids[1..], members, topic);
      assert ids == [ids[0]] + ids[1..];
    }
  }

  lemma {:induction false} SubscribersSorted(ids: seq<string>, members: Members, topic: string)
    requires Sorted(ids)
    ensures Sorted(Subscribers(ids, members, topic))
  {
    if ids != [] {
      SubscribersSorted(ids[1..], members, topic);
      SubscribersAre(ids[1..], members, topic);
      var rest := Subscribers(ids[1..], members, topic);
      forall j | 0 <= j < |rest| ensures Below(ids[0], rest[j]) { assert rest[j] in rest; }
    }
  }

  function PartitionsOf(counts: map<string, nat>, topic: string): nat { if topic in counts then counts[topic] else 0 }

  /** The turns a topic takes: one a partition, if anyone takes them. */
  function TurnsOf(ids: seq<string>, members: Members, counts: map<string, nat>, topic: string): nat
  {
    if Subscribers(ids, members, topic) == [] then 0 else PartitionsOf(counts, topic)
  }

  /** Where the cursor stands before topic `k` of the sorted topics. */
  function Cursor(ids: seq<string>, members: Members, counts: map<string, nat>, topics: seq<string>, k: nat): nat
    requires k <= |topics|
  {
    if k == 0 then 0 else Cursor(ids, members, counts, topics, k - 1) + TurnsOf(ids, members, counts, topics[k - 1])
  }

  lemma CursorNext(ids: seq<string>, members: Members, counts: map<string, nat>, topics: seq<string>, k: nat)
    requires k < |topics|
    ensures Cursor(ids, members, counts, topics, k + 1) == Cursor(ids, members, counts, topics, k) + TurnsOf(ids, members, counts, topics[k])
  {
  }

  /** Who has the given turn. */
  function Taker(subscribed: seq<string>, turn: nat): (m: string)
    requires subscribed != []
    ensures m in subscribed
  {
    subscribed[Rem(turn, |subscribed|)]
  }

  lemma TakerIs(subscribed: seq<string>, turn: nat)
    requires subscribed != []
    ensures turn % |subscribed| < |subscribed| && Taker(subscribed, turn) == subscribed[turn % |subscribed|]
  {
    RemIsMod(turn, |subscribed|);
  }

  /** The partitions below `count` whose turn is `m`'s. */
  function Dealt(subscribed: seq<string>, start: nat, count: nat, m: string): seq<nat>
    requires subscribed != []
  {
    if count == 0 then []
    else Dealt(subscribed, start, count - 1, m) + (if Taker(subscribed, start + count - 1) == m then [count - 1] else [])
  }

  /** What a member holds once topics below `k` and partitions below `p` of topic `k` are placed. */
  ghost predicate Holds(shares: Shares, m: string, ids: seq<string>, members: Members, counts: map<string, nat>,
                        topics: seq<string>, k: nat, p: nat)
    requires k <= |topics|
  {
    && (forall t :: t in shares ==> t in topics)
    && (forall i :: 0 <= i < |topics| ==> HoldsTopic(shares, m, ids, members, counts, topics, k, p, i))
  }

  ghost predicate HoldsTopic(shares: Shares, m: string, ids: seq<string>, members: Members, counts: map<string, nat>,
                             topics: seq<string>, k: nat, p: nat, i: nat)
    requires k <= |topics| && i < |topics|
  {
    var subscribed := Subscribers(ids, members, topics[i]);
    var placed := if i < k then PartitionsOf(counts, topics[i]) else if i == k then p else 0;
    Share(shares, topics[i]) ==
      if subscribed == [] then [] else Dealt(subscribed, Cursor(ids, members, counts, topics, i), placed, m)
  }

  function Share(shares: Shares, topic: string): seq<nat> { if topic in shares then shares[topic] else [] }

  ghost predicate AllHold(assignments: map<string, Shares>, ids: seq<string>, members: Members, counts: map<string, nat>,
                          topics: seq<string>, k: nat, p: nat)
  {
    && assignments.Keys == members.Keys && k <= |topics|
    && forall m :: m in members ==> Holds(assignments[m], m, ids, members, counts, topics, k, p)
  }

  /** One more partition, to the member whose turn it is. */
  function Placed(assignments: map<string, Shares>, member: string, topic: string, p: nat): map<string, Shares>
    requires member in assignments
  {
    assignments[member := assignments[member][topic := Share(assignments[member], topic) + [p]]]
  }

  lemma PlaceOne(assignments: map<string, Shares>, ids: seq<string>, members: Members, counts: map<string, nat>,
                 topics: seq<string>, k: nat, p: nat, cursor: nat, member: string)
    requires AllHold(assignments, ids, members, counts, topics, k, p) && NoTwice(topics) && k < |topics| && member in members
    requires cursor == Cursor(ids, members, counts, topics, k) + p
    requires var subscribed := Subscribers(ids, members, topics[k]);
             subscribed != [] && member == Taker(subscribed, cursor)
    ensures AllHold(Placed(assignments, member, topics[k], p), ids, members, counts, topics, k, p + 1)
  {
    var r, next := Placed(assignments, member, topics[k], p), p + 1;
    forall m | m in members ensures Holds(r[m], m, ids, members, counts, topics, k, next) {
      forall i | 0 <= i < |topics| ensures HoldsTopic(r[m], m, ids, members, counts, topics, k, next, i) {
        PlaceOneHolds(assignments, ids, members, counts, topics, k, p, cursor, member, m, i);
      }
    }
  }

  lemma PlaceOneHolds(assignments: map<string, Shares>, ids: seq<string>, members: Members, counts: map<string, nat>,
                      topics: seq<string>, k: nat, p: nat, cursor: nat, member: string, m: string, i: nat)
    requires AllHold(assignments, ids, members, counts, topics, k, p) && NoTwice(topics) && k < |topics| && member in members
    requires cursor == Cursor(ids, members, counts, topics, k) + p
    requires var subscribed := Subscribers(ids, members, topics[k]);
             subscribed != [] && member == Taker(subscribed, cursor)
    requires m in members && i < |topics|
    ensures HoldsTopic(Placed(assignments, member, topics[k], p)[m], m, ids, members, counts, topics, k, p + 1, i)
  {
    assert Holds(assignments[m], m, ids, members, counts, topics, k, p);
    assert HoldsTopic(assignments[m], m, ids, members, counts, topics, k, p, i);
    if i == k {
      DealtNext(Subscribers(ids, members, topics[k]), Cursor(ids, members, counts, topics, k), p, cursor, m);
    } else {
      assert topics[i] != topics[k];
      assert Share(Placed(assignments, member, topics[k], p)[m], topics[i]) == Share(assignments[m], topics[i]);
    }
  }

  lemma DealtNext(subscribed: seq<string>, start: nat, p: nat, turn: nat, m: string)
    requires subscribed != [] && turn == start + p
    ensures Dealt(subscribed, start, p + 1, m) == Dealt(subscribed, start, p, m) + (if Taker(subscribed, turn) == m then [p] else [])
  {
  }

  lemma NextTopic(assignments: map<string, Shares>, ids: seq<string>, members: Members, counts: map<string, nat>,
                  topics: seq<string>, k: nat, p: nat)
    requires AllHold(assignments, ids, members, counts, topics, k, p) && k < |topics|
    requires p == PartitionsOf(counts, topics[k]) || Subscribers(ids, members, topics[k]) == []
    ensures AllHold(assignments, ids, members, counts, topics, k + 1, 0)
  {
    var next := k + 1;
    forall m | m in members ensures Holds(assignments[m], m, ids, members, counts, topics, next, 0) {
      forall i | 0 <= i < |topics| ensures HoldsTopic(assignments[m], m, ids, members, counts, topics, next, 0, i) {
        assert HoldsTopic(assignments[m], m, ids, members, counts, topics, k, p, i);
      }
    }
  }

  lemma NonePlaced(assignments: map<string, Shares>, ids: seq<string>, members: Members, counts: map<string, nat>, topics: seq<string>)
    requires assignments.Keys == members.Keys
    requires forall m :: m in members ==> assignments[m] == map[]
    ensures AllHold(assignments, ids, members, counts, topics, 0, 0)
  {
    forall m | m in members ensures Holds(assignments[m], m, ids, members, counts, topics, 0, 0) {
    }
  }

  ghost predicate NoTwice(topics: seq<string>) { forall i, j :: 0 <= i < j < |topics| ==> topics[i] != topics[j] }

  lemma SortedNoTwice(s: seq<string>)
    requires Sorted(s)
    ensures NoTwice(s)
  {
    forall i, j | 0 <= i < j < |s| ensures s[i] != s[j] { BelowIsOrder(s[i], s[j], s[i]); }
  }

  /** A topic that is placed: the cursor stands where the next one begins. */
  lemma TopicPlaced(assignments: map<string, Shares>, ids: seq<string>, members: Members, counts: map<string, nat>,
                    topics: seq<string>, k: nat, p: nat)
    requires AllHold(assignments, ids, members, counts, topics, k, p) && k < |topics| && p <= PartitionsOf(counts, topics[k])
    requires if Subscribers(ids, members, topics[k]) == [] then p == 0 else p == PartitionsOf(counts, topics[k])
    ensures AllHold(assignments, ids, members, counts, topics, k + 1, 0)
    ensures Cursor(ids, members, counts, topics, k + 1) == Cursor(ids, members, counts, topics, k) + p
  {
    CursorNext(ids, members, counts, topics, k);
    NextTopic(assignments, ids, members, counts, topics, k, p);
  }

  /** The assignment: every member with its partitions by topic. */
  method Assign(listing: seq<string>, members: Members, leaderTopics: seq<string>, counts: map<string, nat>)
    returns (assignments: map<string, Shares>)
    requires forall m :: m in listing <==> m in members
    ensures var topics := Sort(Mentioned(listing, members, leaderTopics));
            AllHold(assignments, Sort(listing), members, counts, topics, |topics|, 0)
  {
    var memberIds := Sort(listing);
    assignments := map m | m in members :: map[];
    var wanted := Wanted(listing, members, leaderTopics);
    SortSorts(Mentioned(listing, members, leaderTopics));
    SortedNoTwice(wanted);
    NonePlaced(assignments, memberIds, members, counts, wanted);
    var cursor := 0;
    for k := 0 to |wanted|
      invariant cursor == Cursor(memberIds, members, counts, wanted, k)
      invariant AllHold(assignments, memberIds, members, counts, wanted, k, 0)
    {
      assignments, cursor := PlaceTopic(assignments, memberIds, members, counts, wanted, k, cursor);
    }
  }

  /** One partition, to the subscriber the cursor points at. */
  method PlacePartition(before: map<string, Shares>, memberIds: seq<string>, members: Members, counts: map<string, nat>,
                        topics: seq<string>, k: nat, p: nat, cursor: nat, subscribed: seq<string>)
    returns (assignments: map<string, Shares>)
    requires AllHold(before, memberIds, members, counts, topics, k, p) && NoTwice(topics) && k < |topics|
    requires subscribed == Subscribers(memberIds, members, topics[k]) && subscribed != []
    requires cursor == Cursor(memberIds, members, counts, topics, k) + p
    ensures AllHold(assignments, memberIds, members, counts, topics, k, p + 1)
  {
    TakerIs(subscribed, cursor);
    SubscribersAre(memberIds, members, topics[k]);
    var member := subscribed[cursor % |subscribed|];
    PlaceOne(before, memberIds, members, counts, topics, k, p, cursor, member);
    assignments := Placed(before, member, topics[k], p);
  }

  /** One topic, partition by partition, as long as anyone subscribes to it. */
  method PlaceTopic(before: map<string, Shares>, memberIds: seq<string>, members: Members, counts: map<string, nat>,
                    topics: seq<string>, k: nat, start: nat)
    returns (assignments: map<string, Shares>, cursor: nat)
    requires AllHold(before, memberIds, members, counts, topics, k, 0) && NoTwice(topics) && k < |topics|
    requires start == Cursor(memberIds, members, counts, topics, k)
    ensures AllHold(assignments, memberIds, members, counts, topics, k + 1, 0)
    ensures cursor == Cursor(memberIds, members, counts, topics, k + 1)
  {
    assignments, cursor := before, start;
    var subscribed := Subscribers(memberIds, members, topics[k]);
    var count := PartitionsOf(counts, topics[k]);
    var p := 0;
    while p < count && |subscribed| > 0
      invariant p <= count && (subscribed == [] ==> p == 0)
      invariant cursor == start + p
      invariant AllHold(assignments, memberIds, members, counts, topics, k, p)
      decreases count - p
    {
      assignments := PlacePartition(assignments, memberIds, members, counts, topics, k, p, cursor, subscribed);
      cursor := cursor + 1;
      p := p + 1;
    }
    TopicPlaced(assignments, memberIds, members, counts, topics, k, p);
  }

  /** Every topic the leader or a listed member asks for, as often as they do. */
  function Mentioned(listing: seq<string>, members: Members, leaderTopics: seq<string>): seq<string> {
    if listing == [] then leaderTopics
    else
      var m := listing[|listing| - 1];
      Mentioned(listing[..|listing| - 1], members, leaderTopics) + (if m in members && members[m].Some? then members[m].value else [])
  }

  ghost predicate Asks(members: Members, m: string, topic: string) {
    m in members && members[m].Some? && topic in members[m].value
  }

  lemma {:induction false} MentionedIs(listing: seq<string>, members: Members, leaderTopics: seq<string>, t: string)
    ensures t in Mentioned(listing, members, leaderTopics) <==> t in leaderTopics || exists m :: m in listing && Asks(members, m, t)
    decreases |listing|
  {
    if listing != [] {
      var before, m := listing[..|listing| - 1], listing[|listing| - 1];
      assert listing == before + [m];
      MentionedIs(before, members, leaderTopics, t);
      assert Asks(members, m, t) ==> m in listing;
      if x :| x in before && Asks(members, x, t) { assert x in listing; }
    }
  }

  method Wanted(listing: seq<string>, members: Members, leaderTopics: seq<string>) returns (topics: seq<string>)
    ensures topics == Sort(Mentioned(listing, members, leaderTopics))
  {
    var all := leaderTopics;
    for i := 0 to |listing|
      invariant all == Mentioned(listing[..i], members, leaderTopics)
    {
      if listing[i] in members && members[listing[i]].Some? { all := all + members[listing[i]].value; }
      assert listing[..i + 1][..i] == listing[..i];
    }
    assert listing[..|listing|] == listing;
    topics := Sort(all);
  }

  /** What the sorted members and topics are: exactly the members, and exactly what somebody asks for, each once. */
  lemma SortedParties(listing: seq<string>, members: Members, leaderTopics: seq<string>)
    requires forall m :: m in listing <==> m in members
    ensures Sorted(Sort(listing)) && forall m :: m in Sort(listing) <==> m in members
    ensures var topics := Sort(Mentioned(listing, members, leaderTopics));
            Sorted(topics) && forall t :: t in topics <==> t in leaderTopics || exists m :: Asks(members, m, t)
  {
    SortSorts(listing);
    SortSorts(Mentioned(listing, members, leaderTopics));
    forall t ensures t in Mentioned(listing, members, leaderTopics) <==> t in leaderTopics || exists m :: Asks(members, m, t) {
      MentionedIs(listing, members, leaderTopics, t);
    }
  }

  // ------------------------------------------------- what the result means

  lemma {:induction false} DealtExactly(subscribed: seq<string>, start: nat, count: nat, m: string)
    requires subscribed != []
    ensures forall p :: p in Dealt(subscribed, start, count, m) <==> 0 <= p < count && Taker(subscribed, start + p) == m
    ensures forall i, j :: 0 <= i < j < |Dealt(subscribed, start, count, m)| ==>
              Dealt(subscribed, start, count, m)[i] < Dealt(subscribed, start, count, m)[j]
  {
    if count > 0 {
      DealtExactly(subscribed, start, count - 1, m);
      var d, before := Dealt(subscribed, start, count, m), Dealt(subscribed, start, count - 1, m);
      assert d == before || d == before + [count - 1];
      forall i | 0 <= i < |before| ensures before[i] < count - 1 { assert before[i] in before; }
    }
  }

  lemma {:induction false} DealtIsTurns(subscribed: seq<string>, start: nat, count: nat, i: nat)
    requires i < |subscribed| && NoTwice(subscribed)
    ensures |Dealt(subscribed, start, count, subscribed[i])| == Turns(start, count, |subscribed|, i)
  {
    if count > 0 {
      DealtIsTurns(subscribed, start, count - 1, i);
      var j := Rem(start + count - 1, |subscribed|);
      assert Taker(subscribed, start + count - 1) == subscribed[j];
      assert subscribed[j] == subscribed[i] <==> j == i;
    }
  }

  lemma InDealt(subscribed: seq<string>, start: nat, count: nat, m: string, p: nat)
    requires subscribed != [] && p < count
    ensures p in Dealt(subscribed, start, count, m) <==> m == Taker(subscribed, start + p)
  {
    DealtExactly(subscribed, start, count, m);
  }

  lemma TopicHeld(assignments: map<string, Shares>, ids: seq<string>, members: Members, counts: map<string, nat>,
                  topics: seq<string>, i: nat, m: string)
    requires AllHold(assignments, ids, members, counts, topics, |topics|, 0) && i < |topics| && m in members
    ensures m in assignments && HoldsTopic(assignments[m], m, ids, members, counts, topics, |topics|, 0, i)
  {
    assert Holds(assignments[m], m, ids, members, counts, topics, |topics|, 0);
  }

  /** Whose a partition is: the member whose turn it was. */
  lemma OwnerIs(assignments: map<string, Shares>, members: Members, topic: string, subscribed: seq<string>, start: nat, count: nat, p: nat, n: string)
    requires n in members && n in assignments && p < count && subscribed != []
    requires Share(assignments[n], topic) == Dealt(subscribed, start, count, n)
    ensures IsOwner(assignments, members, topic, p, n) <==> n == Taker(subscribed, start + p)
  {
    InDealt(subscribed, start, count, n, p);
  }

  lemma SubscribersKnown(ids: seq<string>, members: Members, topic: string)
    ensures OnlySubscribers(members, topic, Subscribers(ids, members, topic))
  {
    SubscribersAre(ids, members, topic);
  }

  /** Every member's share of the topic is what the turns deal it. */
  ghost predicate TopicDealt(assignments: map<string, Shares>, members: Members, topic: string, subscribed: seq<string>, start: nat, count: nat)
    requires subscribed != []
  {
    forall m :: m in members ==> m in assignments && Share(assignments[m], topic) == Dealt(subscribed, start, count, m)
  }

  lemma TopicIsDealt(assignments: map<string, Shares>, ids: seq<string>, members: Members, counts: map<string, nat>,
                     topics: seq<string>, i: nat)
    requires AllHold(assignments, ids, members, counts, topics, |topics|, 0) && i < |topics| && Subscribers(ids, members, topics[i]) != []
    ensures TopicDealt(assignments, members, topics[i], Subscribers(ids, members, topics[i]), Cursor(ids, members, counts, topics, i),
                       PartitionsOf(counts, topics[i]))
  {
    forall m | m in members
      ensures m in assignments && Share(assignments[m], topics[i]) ==
              Dealt(Subscribers(ids, members, topics[i]), Cursor(ids, members, counts, topics, i), PartitionsOf(counts, topics[i]), m)
    {
      TopicHeld(assignments, ids, members, counts, topics, i, m);
    }
  }

  lemma OneOwner(assignments: map<string, Shares>, members: Members, topic: string, subscribed: seq<string>, start: nat, count: nat, p: nat)
    returns (owner: string)
    requires subscribed != [] && TopicDealt(assignments, members, topic, subscribed, start, count) && p < count
    requires OnlySubscribers(members, topic, subscribed)
    ensures Subscribes(members, owner, topic) && OwnedBy(assignments, members, topic, p, owner)
  {
    owner := Taker(subscribed, start + p);
    assert owner in subscribed;
    forall n ensures IsOwner(assignments, members, topic, p, n) <==> n == owner {
      if n in members { OwnerIs(assignments, members, topic, subscribed, start, count, p, n); }
    }
  }

  ghost predicate OnlySubscribers(members: Members, topic: string, subscribed: seq<string>) {
    forall m :: m in subscribed ==> Subscribes(members, m, topic)
  }

  /** The partition is this member's and nobody else's. */
  ghost predicate OwnedBy(assignments: map<string, Shares>, members: Members, topic: string, p: nat, owner: string) {
    forall n :: IsOwner(assignments, members, topic, p, n) <==> n == owner
  }

  /** A partition of a topic somebody subscribes to has exactly one owner, and that owner subscribes to the topic. */
  lemma ExactlyOneOwner(assignments: map<string, Shares>, ids: seq<string>, members: Members, counts: map<string, nat>,
                        topics: seq<string>, i: nat, p: nat) returns (owner: string)
    requires AllHold(assignments, ids, members, counts, topics, |topics|, 0) && i < |topics|
    requires p < PartitionsOf(counts, topics[i]) && Subscribers(ids, members, topics[i]) != []
    ensures Subscribes(members, owner, topics[i]) && OwnedBy(assignments, members, topics[i], p, owner)
  {
    var subscribed, start := Subscribers(ids, members, topics[i]), Cursor(ids, members, counts, topics, i);
    SubscribersKnown(ids, members, topics[i]);
    TopicIsDealt(assignments, ids, members, counts, topics, i);
    owner := OneOwner(assignments, members, topics[i], subscribed, start, PartitionsOf(counts, topics[i]), p);
  }

  ghost predicate IsOwner(assignments: map<string, Shares>, members: Members, topic: string, p: nat, m: string) {
    m in members && m in assignments && p in Share(assignments[m], topic)
  }

  /** Nothing else is handed out: what a member holds are existing partitions of wanted topics it subscribes to, each list in order and without repeats. */
  lemma OnlyWhatExists(assignments: map<string, Shares>, ids: seq<string>, members: Members, counts: map<string, nat>,
                       topics: seq<string>, m: string, t: string)
    requires AllHold(assignments, ids, members, counts, topics, |topics|, 0) && m in members
    ensures t in assignments[m] ==> t in topics
    ensures forall p :: p in Share(assignments[m], t) ==> p < PartitionsOf(counts, t) && Subscribes(members, m, t)
    ensures var s := Share(assignments[m], t); forall a, b :: 0 <= a < b < |s| ==> s[a] < s[b]
  {
    assert Holds(assignments[m], m, ids, members, counts, topics, |topics|, 0);
    if t in assignments[m] {
      var i :| 0 <= i < |topics| && topics[i] == t;
      TopicExists(assignments, ids, members, counts, topics, i, m);
    }
  }

  lemma TopicExists(assignments: map<string, Shares>, ids: seq<string>, members: Members, counts: map<string, nat>,
                    topics: seq<string>, i: nat, m: string)
    requires AllHold(assignments, ids, members, counts, topics, |topics|, 0) && i < |topics| && m in members
    ensures forall p :: p in Share(assignments[m], topics[i]) ==>
              p < PartitionsOf(counts, topics[i]) && Subscribes(members, m, topics[i])
    ensures var s := Share(assignments[m], topics[i]); forall a, b :: 0 <= a < b < |s| ==> s[a] < s[b]
  {
    var subscribed := Subscribers(ids, members, topics[i]);
    assert HoldsTopic(assignments[m], m, ids, members, counts, topics, |topics|, 0, i);
    if subscribed != [] {
      var start, count := Cursor(ids, members, counts, topics, i), PartitionsOf(counts, topics[i]);
      DealtExactly(subscribed, start, count, m);
      SubscribersAre(ids, members, topics[i]);
      forall p | p in Share(assignments[m], topics[i]) ensures Subscribes(members, m, topics[i]) {
        assert Taker(subscribed, start + p) in subscribed;
      }
    }
  }

  /** Within a topic, no subscriber has more than one partition more than another. */
  lemma TopicBalanced(assignments: map<string, Shares>, ids: seq<string>, members: Members, counts: map<string, nat>,
                      topics: seq<string>, i: nat, m: string, n: string)
    requires AllHold(assignments, ids, members, counts, topics, |topics|, 0) && Sorted(ids) && i < |topics|
    requires m in ids && n in ids && Subscribes(members, m, topics[i]) && Subscribes(members, n, topics[i])
    ensures |Share(assignments[m], topics[i])| <= |Share(assignments[n], topics[i])| + 1
  {
    var subscribed := Subscribers(ids, members, topics[i]);
    SubscribersSorted(ids, members, topics[i]);
    SortedNoTwice(subscribed);
    SubscribersAre(ids, members, topics[i]);
    assert HoldsTopic(assignments[m], m, ids, members, counts, topics, |topics|, 0, i);
    assert HoldsTopic(assignments[n], n, ids, members, counts, topics, |topics|, 0, i);
    var a :| 0 <= a < |subscribed| && subscribed[a] == m;
    var b :| 0 <= b < |subscribed| && subscribed[b] == n;
    var start, count := Cursor(ids, members, counts, topics, i), PartitionsOf(counts, topics[i]);
    DealtIsTurns(subscribed, start, count, a);
    DealtIsTurns(subscribed, start, count, b);
    TurnsBalance(start, count, |subscribed|, a, b);
  }

  /** All a member holds of the topics below `k`. */
  function Load(shares: Shares, topics: seq<string>, k: nat): nat
    requires k <= |topics|
  {
    if k == 0 then 0 else Load(shares, topics, k - 1) + |Share(shares, topics[k - 1])|
  }

  lemma {:induction false} TurnsAdd(start: nat, count: nat, more: nat, n: nat, i: nat)
    requires i < n
    ensures Turns(start, count + more, n, i) == Turns(start, count, n, i) + Turns(start + count, more, n, i)
    decreases more
  {
    if more > 0 { TurnsAdd(start, count, more - 1, n, i); }
  }

  lemma {:induction false} SubscribersAll(ids: seq<string>, members: Members, topic: string)
    requires forall m :: m in ids ==> Subscribes(members, m, topic)
    ensures Subscribers(ids, members, topic) == ids
  {
    if ids != [] { SubscribersAll(ids[1..], members, topic); }
  }

  lemma ShareIsTurns(assignments: map<string, Shares>, ids: seq<string>, members: Members, counts: map<string, nat>,
                     topics: seq<string>, i: nat, a: nat)
    requires AllHold(assignments, ids, members, counts, topics, |topics|, 0) && Sorted(ids) && i < |topics| && a < |ids|
    requires forall x :: x in ids ==> x in members
    requires forall m :: m in ids ==> Subscribes(members, m, topics[i])
    ensures |Share(assignments[ids[a]], topics[i])| ==
            Turns(Cursor(ids, members, counts, topics, i), TurnsOf(ids, members, counts, topics[i]), |ids|, a)
  {
    var m := ids[a];
    assert m in ids;
    SubscribersAll(ids, members, topics[i]);
    SortedNoTwice(ids);
    assert HoldsTopic(assignments[m], m, ids, members, counts, topics, |topics|, 0, i);
    DealtIsTurns(ids, Cursor(ids, members, counts, topics, i), PartitionsOf(counts, topics[i]), a);
  }

  ghost predicate AllSubscribe(ids: seq<string>, members: Members, topics: seq<string>) {
    forall i, m :: 0 <= i < |topics| && m in ids ==> Subscribes(members, m, topics[i])
  }

  lemma LoadIsTurns(assignments: map<string, Shares>, ids: seq<string>, members: Members, counts: map<string, nat>,
                    topics: seq<string>, a: nat)
    requires AllHold(assignments, ids, members, counts, topics, |topics|, 0) && Sorted(ids) && a < |ids|
    requires forall x :: x in ids ==> x in members
    requires AllSubscribe(ids, members, topics)
    ensures Load(assignments[ids[a]], topics, |topics|) == Turns(0, Cursor(ids, members, counts, topics, |topics|), |ids|, a)
  {
    forall i | 0 <= i < |topics| ensures TopicsTurns(assignments[ids[a]], ids, members, counts, topics, i, a) {
      ShareIsTurns(assignments, ids, members, counts, topics, i, a);
    }
    LoadSums(assignments[ids[a]], ids, members, counts, topics, |topics|, a);
  }

  ghost predicate TopicsTurns(shares: Shares, ids: seq<string>, members: Members, counts: map<string, nat>, topics: seq<string>, i: nat, a: nat)
    requires i < |topics| && a < |ids|
  {
    |Share(shares, topics[i])| == Turns(Cursor(ids, members, counts, topics, i), TurnsOf(ids, members, counts, topics[i]), |ids|, a)
  }

  lemma {:induction false} LoadSums(shares: Shares, ids: seq<string>, members: Members, counts: map<string, nat>, topics: seq<string>, k: nat, a: nat)
    requires k <= |topics| && a < |ids|
    requires forall i :: 0 <= i < k ==> TopicsTurns(shares, ids, members, counts, topics, i, a)
    ensures Load(shares, topics, k) == Turns(0, Cursor(ids, members, counts, topics, k), |ids|, a)
    decreases k
  {
    if k > 0 {
      LoadSums(shares, ids, members, counts, topics, k - 1, a);
      assert TopicsTurns(shares, ids, members, counts, topics, k - 1, a);
      TurnsAddUp(Cursor(ids, members, counts, topics, k - 1), TurnsOf(ids, members, counts, topics[k - 1]), |ids|, a);
    }
  }

  lemma TurnsAddUp(before: nat, more: nat, n: nat, i: nat)
    requires i < n
    ensures Turns(0, before + more, n, i) == Turns(0, before, n, i) + Turns(before, more, n, i)
  {
    TurnsAdd(0, before, more, n, i);
    assert 0 + before == before;
  }

  /**
   * Where every member subscribes to every topic, nobody holds more than one
   * partition more than anybody else over all topics together: what the one
   * cursor is for.
   */
  lemma TotalsBalanced(assignments: map<string, Shares>, ids: seq<string>, members: Members, counts: map<string, nat>,
                       topics: seq<string>, a: nat, b: nat)
    requires AllHold(assignments, ids, members, counts, topics, |topics|, 0) && Sorted(ids) && a < |ids| && b < |ids|
    requires forall x :: x in ids ==> x in members
    requires AllSubscribe(ids, members, topics)
    ensures Load(assignments[ids[a]], topics, |topics|) <= Load(assignments[ids[b]], topics, |topics|) + 1
  {
    LoadIsTurns(assignments, ids, members, counts, topics, a);
    LoadIsTurns(assignments, ids, members, counts, topics, b);
    TurnsBalance(0, Cursor(ids, members, counts, topics, |topics|), |ids|, a, b);
  }

  /** Leaders that list the same members, and ask for the same topics themselves, in any order, hand out the same partitions. */
  lemma OrderDoesNotMatter(first: map<string, Shares>, listing: seq<string>, leader: seq<string>,
                           second: map<string, Shares>, listing': seq<string>, leader': seq<string>,
                           members: Members, counts: map<string, nat>, m: string, t: string)
    requires (forall x :: x in listing <==> x in members) && (forall x :: x in listing' <==> x in members)
    requires forall x :: x in leader <==> x in leader'
    requires var topics := Sort(Mentioned(listing, members, leader)); AllHold(first, Sort(listing), members, counts, topics, |topics|, 0)
    requires var topics := Sort(Mentioned(listing', members, leader')); AllHold(second, Sort(listing'), members, counts, topics, |topics|, 0)
    requires m in members && t in Mentioned(listing, members, leader)
    ensures Share(first[m], t) == Share(second[m], t)
  {
    SortedParties(listing, members, leader);
    SortedParties(listing', members, leader');
    var ids, topics := Sort(listing), Sort(Mentioned(listing, members, leader));
    SortedIsUnique(ids, Sort(listing'));
    SortedIsUnique(topics, Sort(Mentioned(listing', members, leader')));
    SortSorts(Mentioned(listing, members, leader));
    SameHoldings(first, second, ids, members, counts, topics, m, t);
  }

  lemma SameHoldings(first: map<string, Shares>, second: map<string, Shares>, ids: seq<string>, members: Members,
                     counts: map<string, nat>, topics: seq<string>, m: string, t: string)
    requires AllHold(first, ids, members, counts, topics, |topics|, 0) && AllHold(second, ids, members, counts, topics, |topics|, 0)
    requires m in members && t in topics
    ensures Share(first[m], t) == Share(second[m], t)
  {
    var i :| 0 <= i < |topics| && topics[i] == t;
    assert HoldsTopic(first[m], m, ids, members, counts, topics, |topics|, 0, i);
    assert HoldsTopic(second[m], m, ids, members, counts, topics, |topics|, 0, i);
  }
}
