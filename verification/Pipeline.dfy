/**
 * The consumer's bookkeeping by partition, updated in place: what a
 * revocation and a beginning stop do to the batches and the parked messages
 * of every partition. Each partition's part of it is a lane.
 */
module Pipeline {
  import opened Basics
  import opened Lanes

  datatype Key = Key(topic: string, partition: nat)

  /** What the client keeps for an assigned partition: the next offset, whether it is paused, the latest delivery. */
  datatype Session = Session(next: Option<nat>, paused: bool, front: Option<nat>)

  function Found<T>(m: map<Key, T>, key: Key): Option<T> { if key in m then Some(m[key]) else None }

  function Or<T>(o: Option<T>, default: T): T { if o.Some? then o.value else default }

  class ConsumerPipeline {
    var revocations: map<Key, nat>
    var batches: map<Key, seq<Item>>
    var runningBatches: map<Key, nat>
    var parked: map<Key, nat>
    var tasks: map<Key, map<nat, Task>>
    var nextIds: map<Key, nat>
    var sessions: map<Key, Session>

    ghost function View(key: Key): Lane
      reads this
    {
      var session := Or(Found(sessions, key), Session(None, false, None));
      Lane(Or(Found(revocations, key), 0), session.next, session.paused, session.front, Found(parked, key),
           Or(Found(batches, key), []), Found(runningBatches, key), Or(Found(tasks, key), map[]), Or(Found(nextIds, key), 0))
    }

    /** No empty batch is kept: one that is there has collected something. */
    ghost predicate Valid()
      reads this
    {
      forall key :: key in batches ==> batches[key] != []
    }

    constructor ()
      ensures Valid() && forall key :: View(key) == UNASSIGNED
    {
      revocations, batches, runningBatches, parked, tasks, nextIds, sessions := map[], map[], map[], map[], map[], map[], map[];
    }

    /** What was collected runs now, on a delivery of its own. */
    method FlushBatch(key: Key)
      requires Valid() && key in batches
      modifies this`batches, this`runningBatches, this`tasks, this`nextIds
      ensures Valid() && View(key) == Lanes.FlushBatch(old(View(key)))
      ensures forall q :: q != key ==> View(q) == old(View(q))
    {
      var items := batches[key];
      batches := batches - {key};
      var id := Or(Found(nextIds, key), 0);
      nextIds := nextIds[key := id + 1];
      runningBatches := runningBatches[key := id];
      tasks := tasks[key := Or(Found(tasks, key), map[])[id := NewRun(items, Flush)]];
    }

    /** An activation is over: its delivery settles, or its chain goes on to resume the partition. */
    method EndTask(key: Key, id: nat, origin: Origin, epoch: nat)
      modifies this`tasks, this`sessions
      ensures View(key) == End(old(View(key)), id, origin, epoch)
      ensures forall q :: q != key ==> View(q) == old(View(q))
    {
      var own := Or(Found(tasks, key), map[]);
      if origin.Chain? {
        tasks := tasks[key := own[id := Closing(epoch)]];
        return;
      }
      tasks := tasks[key := own - {id}];
      if key in sessions && sessions[key].front == Some(id) { sessions := sessions[key := sessions[key].(front := None)]; }
    }

    /** `collect`, while no batch of the partition runs: the message joins the batch, and the one that fills it runs it. */
    method Collect(key: Key, id: nat, off: nat, origin: Origin, size: nat)
      requires Valid()
      modifies this`batches, this`runningBatches, this`tasks, this`sessions
      ensures Valid() && View(key) == Push(size, old(View(key)), id, off, origin)
      ensures forall q :: q != key ==> View(q) == old(View(q))
    {
      var epoch := Or(Found(revocations, key), 0);
      var items := Or(Found(batches, key), []) + [Item(off, epoch)];
      if |items| < size {
        batches := batches[key := items];
        EndTask(key, id, origin, epoch);
        return;
      }
      batches := batches - {key};
      runningBatches := runningBatches[key := id];
      tasks := tasks[key := Or(Found(tasks, key), map[])[id := NewRun(items, origin)]];
    }

    /** What was collected on these partitions never runs. */
    method DiscardBatches(keys: set<Key>)
      requires Valid()
      modifies this`batches
      ensures Valid() && batches == old(batches) - keys
    {
      var rest := keys;
      while rest != {}
        invariant rest <= keys && batches == old(batches) - (keys - rest)
        decreases rest
      {
        var key :| key in rest;
        rest := rest - {key};
        batches := batches - {key};
        assert keys - rest == (keys - (rest + {key})) + {key};
      }
      assert keys - rest == keys;
    }

    /** One parked message forgotten: its timer aborts, and with `resume` its partition flows again. */
    method DiscardOne(key: Key, resume: bool)
      modifies this`parked, this`tasks, this`sessions
      ensures View(key) == Discarded(old(View(key)), resume)
      ensures forall q :: q != key ==> View(q) == old(View(q))
    {
      if key !in parked { return; }
      AbortTimer(key);
      parked := parked - {key};
      if resume && key in sessions { sessions := sessions[key := sessions[key].(paused := false)]; }
    }

    method AbortTimer(key: Key)
      requires key in parked
      modifies this`tasks
      ensures Or(Found(tasks, key), map[]) == Aborted(old(View(key)))
      ensures forall q :: q != key ==> View(q) == old(View(q))
    {
      var id := parked[key];
      if key in tasks && id in tasks[key] && tasks[key][id].Parked? {
        tasks := tasks[key := tasks[key][id := tasks[key][id].(aborted := true)]];
      }
    }

    method DiscardParked(keys: set<Key>, resume: bool)
      modifies this`parked, this`tasks, this`sessions
      ensures forall key :: View(key) == if key in keys then Discarded(old(View(key)), resume) else old(View(key))
    {
      var rest := keys;
      while rest != {}
        invariant rest <= keys
        invariant forall key :: View(key) == if key in keys && key !in rest then Discarded(old(View(key)), resume) else old(View(key))
        decreases rest
      {
        var key :| key in rest;
        rest := rest - {key};
        DiscardOne(key, resume);
      }
    }

    /** The count of one partition's revocations goes up, and the batch it was collecting runs. */
    method CountRevocation(key: Key)
      requires Valid()
      modifies this`revocations, this`batches, this`runningBatches, this`tasks, this`nextIds
      ensures Valid() && View(key) == Counted(old(View(key)))
      ensures forall q :: q != key ==> View(q) == old(View(q))
      ensures parked == old(parked)
    {
      revocations := revocations[key := Or(Found(revocations, key), 0) + 1];
      if key in batches { FlushBatch(key); }
    }

    /** The client takes the partitions back: its session on them is over. */
    method EndSessions(keys: set<Key>)
      modifies this`sessions
      ensures forall key :: View(key) == if key in keys then old(View(key)).(next := None, front := None, paused := false) else old(View(key))
    {
      sessions := sessions - keys;
    }

    method CountRevocations(revoked: set<Key>)
      requires Valid()
      modifies this`revocations, this`batches, this`runningBatches, this`tasks, this`nextIds
      ensures Valid() && forall key :: View(key) == if key in revoked then Counted(old(View(key))) else old(View(key))
    {
      var rest := revoked;
      while rest != {}
        invariant rest <= revoked && Valid()
        invariant forall key :: View(key) == if key in revoked && key !in rest then Counted(old(View(key))) else old(View(key))
        decreases rest
      {
        var key :| key in rest;
        rest := rest - {key};
        CountRevocation(key);
      }
    }

    /** The partitions are revoked. */
    method SettleRevoked(partitions: seq<Key>)
      requires Valid()
      modifies this
      ensures Valid()
      ensures forall key :: View(key) == if key in partitions then Revoked(old(View(key))) else old(View(key))
    {
      var revoked := set key | key in partitions;
      CountRevocations(revoked);
      DiscardParked(revoked, true);
      EndSessions(revoked);
      forall key | key in partitions ensures View(key) == Revoked(old(View(key))) { RevokedInSteps(old(View(key))); }
    }

    /** A stop begins: nothing collected or parked is handled any more. */
    method BeginStop()
      requires Valid()
      modifies this
      ensures Valid() && forall key :: View(key) == Stopped(old(View(key)))
    {
      DiscardBatches(batches.Keys);
      label dropped:
      assert forall key :: View(key) == old(View(key)).(batch := []);
      DiscardParked(parked.Keys, false);
      forall key ensures View(key) == Stopped(old(View(key))) {
        assert old@dropped(View(key)) == old(View(key)).(batch := []);
      }
    }
  }

  /** What becomes of the partition's activations when its parked message is discarded. */
  function Aborted(l: Lane): map<nat, Task> { AbortParked(l).tasks }

  function Discarded(l: Lane, resume: bool): Lane {
    if l.parked.None? then l
    else if resume then AbortParked(l).(paused := false)
    else AbortParked(l)
  }

  function Counted(l: Lane): Lane { Lanes.FlushBatch(l).(epoch := l.epoch + 1) }

  /** Counted, discarded and taken back in turn is revoked. */
  lemma RevokedInSteps(l: Lane)
    ensures Discarded(Counted(l), true).(next := None, front := None, paused := false) == Revoked(l)
  {
  }
}
