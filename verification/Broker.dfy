/** The in-memory broker's logs: what a produce validates and appends. */
module Broker {
  import opened Basics

  datatype Record = Record(topic: string, partition: Option<int>, key: Option<seq<bv8>>, value: string)

  datatype Stored = Stored(partition: nat, offset: nat, record: Record)

  datatype Topic = Topic(partitions: seq<seq<Stored>>, appended: seq<Stored>, roundRobin: nat)

  type Topics = map<string, Topic>

  /** How many partitions a topic created on demand gets, whether one is, and the partitioner's hash of a key. */
  datatype Settings = Settings(partitions: nat, autoCreate: bool, hash: seq<bv8> -> nat)

  function Count(topics: Topics, settings: Settings, name: string): nat {
    if name in topics then |topics[name].partitions| else settings.partitions
  }

  /** Whether the record's partition, if it names one, exists. */
  predicate Lands(topics: Topics, settings: Settings, r: Record) {
    r.partition.Some? ==> 0 <= r.partition.value < Count(topics, settings, r.topic)
  }

  predicate Fits(topics: Topics, settings: Settings, r: Record) {
    r.topic != "" && (settings.autoCreate || r.topic in topics) && Lands(topics, settings, r)
  }

  /** A batch passes only as a whole, before anything of it is written. */
  method Validate(topics: Topics, settings: Settings, records: seq<Record>) returns (ok: bool)
    ensures ok <==> forall r :: r in records ==> Fits(topics, settings, r)
  {
    for i := 0 to |records|
      invariant forall j :: 0 <= j < i ==> Fits(topics, settings, records[j])
    {
      assert records[i] in records;
      if records[i].topic == "" { return false; }
      if !settings.autoCreate && records[i].topic !in topics { return false; }
      var count := Count(topics, settings, records[i].topic);
      if records[i].partition.Some? && (records[i].partition.value < 0 || records[i].partition.value >= count) { return false; }
    }
    return true;
  }

  function Empty(partitions: nat): Topic { Topic(seq(partitions, i => []), [], 0) }

  function Ensured(topics: Topics, name: string, partitions: nat): Topics {
    if name in topics then topics else topics[name := Empty(partitions)]
  }

  /** Where a record goes: where it says, where its key says, or round-robin. */
  function Chosen(t: Topic, settings: Settings, r: Record): int
    requires |t.partitions| > 0
  {
    if r.partition.Some? then r.partition.value
    else if r.key.Some? then settings.hash(r.key.value) % |t.partitions|
    else t.roundRobin % |t.partitions|
  }

  function Grown(t: Topic, settings: Settings, r: Record): Topic
    requires |t.partitions| > 0 && 0 <= Chosen(t, settings, r) < |t.partitions|
  {
    var p := Chosen(t, settings, r);
    var m := Stored(p, |t.partitions[p]|, r);
    Topic(t.partitions[p := t.partitions[p] + [m]], t.appended + [m],
          if r.partition.None? && r.key.None? then t.roundRobin + 1 else t.roundRobin)
  }

  /** Record by record; one whose partition does not exist stops it half-way. */
  function Appended(topics: Topics, settings: Settings, records: seq<Record>): (r: (Topics, bool))
    requires TopicsOk(topics) && settings.partitions > 0
    ensures TopicsOk(r.0)
    decreases |records|
  {
    if records == [] then (topics, true)
    else
      if !Lands(topics, settings, records[0]) then (Ensured(topics, records[0].topic, settings.partitions), false)
      else Appended(AppendedOne(topics, settings, records[0]), settings, records[1..])
  }

  // ------------------------------------------------------------ what holds

  function Of(s: seq<Stored>, p: nat): seq<Stored> {
    if s == [] then [] else Of(s[..|s| - 1], p) + (if s[|s| - 1].partition == p then [s[|s| - 1]] else [])
  }

  /** Offsets count from zero, and each partition's log is the topic's history of it, in order. */
  predicate TopicOk(t: Topic) {
    && |t.partitions| > 0
    && (forall p, o :: 0 <= p < |t.partitions| && 0 <= o < |t.partitions[p]| ==> t.partitions[p][o].offset == o)
    && (forall p :: 0 <= p < |t.partitions| ==> t.partitions[p] == Of(t.appended, p))
  }

  predicate TopicsOk(topics: Topics) { forall n :: n in topics ==> TopicOk(topics[n]) }

  lemma GrownOk(t: Topic, settings: Settings, r: Record)
    requires TopicOk(t) && (r.partition.Some? ==> 0 <= r.partition.value < |t.partitions|)
    ensures 0 <= Chosen(t, settings, r) < |t.partitions| && TopicOk(Grown(t, settings, r))
  {
    var g := Grown(t, settings, r);
    forall p | 0 <= p < |g.partitions| ensures g.partitions[p] == Of(g.appended, p) {
      assert g.appended[..|g.appended| - 1] == t.appended;
    }
  }

  function Bodies(s: seq<Stored>): seq<Record> { seq(|s|, i requires 0 <= i < |s| => s[i].record) }

  function History(topics: Topics, name: string): seq<Record> {
    if name in topics then Bodies(topics[name].appended) else []
  }

  function For(records: seq<Record>, name: string): seq<Record> {
    if records == [] then [] else (if records[0].topic == name then [records[0]] else []) + For(records[1..], name)
  }

  lemma {:induction false} ForAppends(a: seq<Record>, b: seq<Record>, name: string)
    ensures For(a + b, name) == For(a, name) + For(b, name)
  {
    if a == [] {
      assert a + b == b;
    } else {
      ForAppends(a[1..], b, name);
      assert (a + b)[1..] == a[1..] + b;
    }
  }

  /** The topics after one record that lands. */
  function AppendedOne(topics: Topics, settings: Settings, r: Record): (next: Topics)
    requires TopicsOk(topics) && settings.partitions > 0 && Lands(topics, settings, r)
    ensures TopicsOk(next) && r.topic in next
  {
    var t := Ensured(topics, r.topic, settings.partitions);
    GrownOk(t[r.topic], settings, r);
    t[r.topic := Grown(t[r.topic], settings, r)]
  }

  lemma OneGrows(topics: Topics, settings: Settings, r: Record, name: string)
    requires TopicsOk(topics) && settings.partitions > 0 && Lands(topics, settings, r)
    ensures var next := AppendedOne(topics, settings, r);
            History(next, name) == History(topics, name) + For([r], name) && Count(next, settings, name) == Count(topics, settings, name)
  {
    var t := Ensured(topics, r.topic, settings.partitions);
    var next := AppendedOne(topics, settings, r);
    assert For([r], name) == if r.topic == name then [r] else [];
    if name == r.topic {
      assert Bodies(next[name].appended) == Bodies(t[name].appended) + [r];
    }
  }

  lemma LandsStays(topics: Topics, settings: Settings, r: Record, rest: seq<Record>)
    requires TopicsOk(topics) && settings.partitions > 0 && Lands(topics, settings, r)
    ensures forall x :: x in rest ==> (Lands(topics, settings, x) <==> Lands(AppendedOne(topics, settings, r), settings, x))
  {
    forall x | x in rest ensures Lands(topics, settings, x) <==> Lands(AppendedOne(topics, settings, r), settings, x) {
      OneGrows(topics, settings, r, x.topic);
    }
  }

  /** A batch is appended to the end exactly when every partition it names exists. */
  lemma {:induction false} AppendsToTheEnd(topics: Topics, settings: Settings, records: seq<Record>)
    requires TopicsOk(topics) && settings.partitions > 0
    ensures Appended(topics, settings, records).1 <==> forall r :: r in records ==> Lands(topics, settings, r)
    decreases |records|
  {
    if records != [] {
      assert records == [records[0]] + records[1..];
      if Lands(topics, settings, records[0]) {
        AppendsToTheEnd(AppendedOne(topics, settings, records[0]), settings, records[1..]);
        LandsStays(topics, settings, records[0], records[1..]);
      }
    }
  }

  lemma ForSplits(records: seq<Record>, name: string)
    requires records != []
    ensures For(records, name) == For([records[0]], name) + For(records[1..], name)
  {
  }

  /** And then every topic has its records of it behind what was there, in order. */
  lemma {:induction false} AppendsInOrder(topics: Topics, settings: Settings, records: seq<Record>, name: string)
    requires TopicsOk(topics) && settings.partitions > 0 && Appended(topics, settings, records).1
    ensures History(Appended(topics, settings, records).0, name) == History(topics, name) + For(records, name)
    decreases |records|
  {
    if records != [] {
      OneGrows(topics, settings, records[0], name);
      AppendsInOrder(AppendedOne(topics, settings, records[0]), settings, records[1..], name);
      ForSplits(records, name);
      var h, first, rest := History(topics, name), For([records[0]], name), For(records[1..], name);
      Associates(h, first, rest);
    }
  }

  /** What an append leaves every topic: at least the partitions it had, or the default. */
  lemma {:induction false} AppendKeepsCounts(topics: Topics, settings: Settings, records: seq<Record>, name: string)
    requires TopicsOk(topics) && settings.partitions > 0
    ensures Count(Appended(topics, settings, records).0, settings, name) == Count(topics, settings, name)
    decreases |records|
  {
    if records != [] && Lands(topics, settings, records[0]) {
      OneGrows(topics, settings, records[0], name);
      AppendKeepsCounts(AppendedOne(topics, settings, records[0]), settings, records[1..], name);
    }
  }

  // ------------------------------------------------------- where a record is

  /** How many records there are that name neither a partition nor a key. */
  function Unkeyed(s: seq<Stored>): nat {
    if s == [] then 0
    else Unkeyed(s[..|s| - 1]) + (if s[|s| - 1].record.partition.None? && s[|s| - 1].record.key.None? then 1 else 0)
  }

  /** The record at `i` is where it named, where its key belongs, or next in turn after the unkeyed ones before it. */
  predicate PlacedAt(t: Topic, settings: Settings, i: nat)
    requires i < |t.appended| && |t.partitions| > 0
  {
    var m := t.appended[i];
    match m.record.partition
    case Some(p) => m.partition == p
    case None =>
      m.partition == (if m.record.key.Some? then settings.hash(m.record.key.value) else Unkeyed(t.appended[..i])) % |t.partitions|
  }

  predicate Placed(t: Topic, settings: Settings) {
    && |t.partitions| > 0
    && t.roundRobin == Unkeyed(t.appended)
    && forall i :: 0 <= i < |t.appended| ==> PlacedAt(t, settings, i)
  }

  predicate AllPlaced(topics: Topics, settings: Settings) { forall n :: n in topics ==> Placed(topics[n], settings) }

  lemma GrownPlaces(t: Topic, settings: Settings, r: Record)
    requires Placed(t, settings) && 0 <= Chosen(t, settings, r) < |t.partitions|
    ensures Placed(Grown(t, settings, r), settings)
  {
    var g := Grown(t, settings, r);
    assert g.appended[..|g.appended| - 1] == t.appended;
    forall i | 0 <= i < |g.appended| ensures PlacedAt(g, settings, i) {
      assert g.appended[..i] == t.appended[..i];
      if i < |t.appended| {
        assert PlacedAt(t, settings, i);
      } else {
        assert t.appended[..i] == t.appended;
      }
    }
  }

  /** Whatever is appended, everything on every topic is where it belongs: a key is always on one partition. */
  lemma {:induction false} AppendPlaces(topics: Topics, settings: Settings, records: seq<Record>)
    requires TopicsOk(topics) && settings.partitions > 0 && AllPlaced(topics, settings)
    ensures AllPlaced(Appended(topics, settings, records).0, settings)
    decreases |records|
  {
    if records != [] {
      var ensured := Ensured(topics, records[0].topic, settings.partitions);
      assert AllPlaced(ensured, settings);
      if Lands(topics, settings, records[0]) {
        GrownOk(ensured[records[0].topic], settings, records[0]);
        GrownPlaces(ensured[records[0].topic], settings, records[0]);
        AppendPlaces(AppendedOne(topics, settings, records[0]), settings, records[1..]);
      }
    }
  }

  lemma {:induction false} OfHas(s: seq<Stored>, i: nat)
    requires i < |s|
    ensures s[i] in Of(s, s[i].partition)
  {
    if i < |s| - 1 { OfHas(s[..|s| - 1], i); }
  }

  lemma {:induction false} OfRises(s: seq<Stored>, p: nat, i: nat, j: nat) returns (a: nat, b: nat)
    requires i < j < |s| && s[i].partition == p && s[j].partition == p
    ensures a < b < |Of(s, p)| && Of(s, p)[a] == s[i] && Of(s, p)[b] == s[j]
  {
    if j < |s| - 1 {
      a, b := OfRises(s[..|s| - 1], p, i, j);
    } else {
      OfHas(s[..j], i);
      a :| 0 <= a < |Of(s[..j], p)| && Of(s[..j], p)[a] == s[i];
      b := |Of(s, p)| - 1;
    }
  }

  /** Two records of a topic under one key, neither naming a partition, are on the same one, in the order they came. */
  lemma SameKeySamePartition(t: Topic, settings: Settings, i: nat, j: nat)
    requires TopicOk(t) && Placed(t, settings) && i < j < |t.appended|
    requires var a, b := t.appended[i].record, t.appended[j].record;
             a.partition.None? && b.partition.None? && a.key.Some? && b.key == a.key
    ensures t.appended[i].partition == t.appended[j].partition && t.appended[i].offset < t.appended[j].offset
  {
    assert PlacedAt(t, settings, i) && PlacedAt(t, settings, j);
    var p := t.appended[i].partition;
    var a, b := OfRises(t.appended, p, i, j);
    assert t.partitions[p] == Of(t.appended, p) && t.partitions[p][a].offset == a && t.partitions[p][b].offset == b;
  }

  /** The broker's topics, appended to in place. */
  class MemoryBroker {
    const settings: Settings
    var topics: Topics

    ghost predicate Valid()
      reads this
    {
      settings.partitions > 0 && TopicsOk(topics) && AllPlaced(topics, settings)
    }

    constructor (settings: Settings)
      requires settings.partitions > 0
      ensures Valid() && topics == map[] && this.settings == settings
    {
      this.settings, topics := settings, map[];
    }

    method EnsureTopic(name: string, partitions: nat)
      requires Valid() && partitions > 0
      modifies this`topics
      ensures Valid() && topics == Ensured(old(topics), name, partitions)
    {
      if name !in topics { topics := topics[name := Empty(partitions)]; }
    }

    /** One record after the other; whether it came to the end. */
    method Append(records: seq<Record>) returns (whole: bool)
      requires Valid()
      modifies this`topics
      ensures Valid() && (topics, whole) == Appended(old(topics), settings, records)
    {
      for i := 0 to |records|
        invariant Valid() && Appended(topics, settings, records[i..]) == Appended(old(topics), settings, records)
      {
        var r := records[i];
        assert records[i..][1..] == records[i + 1..];
        if r.partition.Some? && !(0 <= r.partition.value < Count(topics, settings, r.topic)) {
          EnsureTopic(r.topic, settings.partitions);
          return false;
        }
        EnsureTopic(r.topic, settings.partitions);
        GrownOk(topics[r.topic], settings, r);
        GrownPlaces(topics[r.topic], settings, r);
        topics := topics[r.topic := Grown(topics[r.topic], settings, r)];
      }
      return true;
    }

    /** All of the batch or none of it: every topic has its records behind what was there, or nothing changed. */
    method Produce(records: seq<Record>) returns (ok: bool)
      requires Valid()
      modifies this`topics
      ensures Valid() && (ok <==> forall r :: r in records ==> Fits(old(topics), settings, r))
      ensures forall name :: History(topics, name) == History(old(topics), name) + (if ok then For(records, name) else [])
    {
      ok := Validate(topics, settings, records);
      if ok {
        AppendsToTheEnd(topics, settings, records);
        forall name ensures History(Appended(topics, settings, records).0, name) == History(topics, name) + For(records, name) {
          AppendsInOrder(topics, settings, records, name);
        }
        var whole := Append(records);
      }
    }
  }
}
