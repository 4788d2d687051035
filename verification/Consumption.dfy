/** The consumption itself: the adapter's fields, updated in place by its methods. */
module Consumptions {
  import opened Basics
  import opened Scheduler
  import C = Consuming
  import S = Scheduler

  class Consumption {
    const concurrency: nat
    const bufferedMessages: nat
    var queues: Queues
    var ready: seq<Key>
    var waiting: set<Key>
    var running: set<Key>
    var paused: set<Key>
    var lastQueued: map<Key, nat>
    var watermarks: map<Key, nat>
    var epochs: set<Key>
    var holds: set<Key>
    var lost: set<Key>
    var active: int
    var queued: int
    var stopped: bool
    var current: bool               // whether the reader's stream is the one in use
    var reader: Reader
    var assignments: Option<set<Key>>   // the client's, replaced behind the consumption's back
    ghost var streams: nat
    ghost var lostUnder: map<Key, nat>
    ghost var taken: Queues

    ghost function LineView(): Line
      reads this
    {
      Line(concurrency, queues, ready, waiting, running, paused, active, queued, stopped)
    }

    ghost function View(): State
      reads this
    {
      State(LineView(), Marks(lastQueued, watermarks, epochs), Holding(holds, lost, current, streams, lostUnder),
            reader, bufferedMessages, assignments, taken)
    }

    constructor (concurrency: nat, bufferedMessages: nat)
      requires concurrency >= 1 && bufferedMessages >= 1
      ensures View() == State(Line(concurrency, map[], [], {}, {}, {}, 0, 0, false), Marks(map[], map[], {}),
                              Holding({}, {}, false, 0, map[]), Ended, bufferedMessages, None, map[])
      ensures S.Valid(View())
    {
      this.concurrency, this.bufferedMessages := concurrency, bufferedMessages;
      queues, ready, waiting, running, paused := map[], [], {}, {}, {};
      lastQueued, watermarks, epochs, holds, lost := map[], map[], {}, {}, {};
      active, queued, stopped, current := 0, 0, false, false;
      reader, assignments := Ended, None;
      streams, lostUnder, taken := 0, map[], map[];
    }

    method MarkReady(key: Key)
      modifies this`waiting, this`ready
      ensures LineView() == S.MarkReady(old(LineView()), key)
    {
      if key in waiting || key in running || key in paused { return; }
      if key !in queues || queues[key] == [] { return; }
      waiting := waiting + {key};
      ready := ready + [key];
    }

    method Release()
      modifies this`reader
      ensures View() == S.Release(old(View()))
    {
      if !reader.Waiting? { return; }
      if queued >= bufferedMessages && !stopped { return; }
      reader := Woken(reader.key, reader.offset);
    }

    /** The first in line leaves it, being paused. */
    method SkipFirst()
      requires ready != []
      modifies this`ready, this`waiting
      ensures View() == old(View()).(line := Leave(old(LineView())))
    {
      ready, waiting := ready[1..], waiting - {ready[0]};
    }

    /** A free slot takes the next message of the first in line. */
    method TakeSlot() returns (key: Key, message: Message)
      requires ready != [] && At(queues, ready[0]) != []
      modifies this`ready, this`waiting, this`queues, this`queued, this`active, this`running
      ensures key == old(ready[0]) && message == old(queues[ready[0]][0])
      ensures LineView() == Take(old(LineView()))
    {
      key := ready[0];
      ready, waiting := ready[1..], waiting - {key};
      message := queues[key][0];
      queues := queues[key := queues[key][1..]];
      queued := queued - 1;
      running := running + {key};
      active := active + 1;
    }

    method TakeFirst() returns (key: Key, message: Message)
      requires ready != [] && At(queues, ready[0]) != []
      modifies this`ready, this`waiting, this`queues, this`queued, this`active, this`running, this`taken
      ensures key == old(ready[0]) && message == old(queues[ready[0]][0])
      ensures View() == Taken(old(View()))
    {
      key, message := TakeSlot();
      taken := taken[key := At(taken, key) + [message]];
    }

    method Dispatch(parks: Parks)
      requires Shaped(LineView())
      modifies this
      ensures View() == S.Dispatch(old(View()), parks)
      decreases queued, 0, |ready|
    {
      while !stopped && active < concurrency && ready != []
        invariant Shaped(LineView()) && queued <= old(queued)
        invariant S.Dispatch(View(), parks) == S.Dispatch(old(View()), parks)
        decreases queued, |ready|
      {
        if ready[0] in paused {
          LeaveKeeps(LineView());
          SkipFirst();
        } else {
          TakeKeeps(LineView());
          var key, message := TakeFirst();
          Deliver(key, message, parks);
        }
      }
    }

    /** The partition's leader epoch is known now; its message may be parked at once, which pauses it. */
    method NoteEpoch(key: Key, park: bool)
      modifies this`epochs, this`paused
      ensures epochs == old(epochs) + {key} && paused == if park then old(paused) + {key} else old(paused)
    {
      epochs := epochs + {key};
      if park { paused := paused + {key}; }
    }

    /** What a delivery does before its message is handled, or skipped. */
    method Begin(key: Key, message: Message, parks: Parks) returns (skipped: bool)
      modifies this`reader, this`lastQueued, this`watermarks, this`epochs, this`paused
      ensures View() == Begun(old(View()), key, message, parks) && skipped == !old(View()).IsAssigned(key)
    {
      Release();
      skipped := assignments.Some? && key !in assignments.value;
      if skipped {
        lastQueued, watermarks := lastQueued - {key}, watermarks[key := Tag(watermarks, key) + 1];
        epochs := epochs - {key};
      } else {
        NoteEpoch(key, (key, message.offset) in parks);
      }
    }

    /** Up to the wait for the handler; a partition not held any more ends it at once. */
    method Deliver(key: Key, message: Message, parks: Parks)
      requires Shaped(LineView()) && key in running
      modifies this
      ensures View() == S.Deliver(old(View()), key, message, parks)
      decreases queued, 2, 0
    {
      BegunKeeps(View(), key, message, parks);
      var skipped := Begin(key, message, parks);
      if skipped { Settle(key, parks); }
    }

    method FreeSlot(key: Key)
      modifies this`running, this`active, this`waiting, this`ready
      ensures LineView() == Freed(old(LineView()), key)
    {
      running := running - {key};
      active := active - 1;
      if !stopped { MarkReady(key); }
    }

    /** The end of a delivery, however it went. */
    method Settle(key: Key, parks: Parks)
      requires Shaped(LineView()) && key in running
      modifies this
      ensures View() == S.Finish(old(View()), key, parks)
      decreases queued, 1, 0
    {
      FreeKeeps(LineView(), key);
      FreeSlot(key);
      if !stopped { Dispatch(parks); }
    }

    method Append(key: Key, offset: nat)
      modifies this`lastQueued, this`queues, this`queued
      ensures lastQueued == old(lastQueued)[key := offset]
      ensures LineView() == old(LineView()).(queues := C.Appended(old(View()), key, offset), queued := old(queued) + 1)
    {
      lastQueued := lastQueued[key := offset];
      queues := queues[key := At(queues, key) + [Message(offset, Tag(watermarks, key))]];
      queued := queued + 1;
    }

    method Push(key: Key, offset: nat)
      modifies this`lastQueued, this`queues, this`queued, this`waiting, this`ready
      ensures View() == C.Pushed(old(View()), key, offset)
    {
      Append(key, offset);
      MarkReady(key);
    }

    method Enqueue(key: Key, offset: nat, parks: Parks)
      requires Shaped(LineView())
      modifies this
      ensures View() == C.Enqueue(old(View()), key, offset, parks)
    {
      if assignments.Some? && key !in assignments.value { return; }
      if key in lastQueued && offset <= lastQueued[key] { return; }
      C.PushedShaped(View(), key, offset);
      Push(key, offset);
      Dispatch(parks);
    }

    /** The stream hands over a message: with no room the reader waits. */
    method Read(key: Key, offset: nat, parks: Parks)
      requires Shaped(LineView()) && reader.Reading?
      modifies this
      ensures View() == C.Next(old(View()), C.Read(key, offset, parks))
    {
      if queued >= bufferedMessages { reader := Waiting(key, offset); } else { Accept(key, offset, parks); }
    }

    method Accept(key: Key, offset: nat, parks: Parks)
      requires Shaped(LineView())
      modifies this
      ensures View() == C.Accept(old(View()), key, offset, parks)
    {
      if stopped || !current {
        reader := Ended;
      } else {
        reader := Reading;
        Enqueue(key, offset, parks);
      }
    }

    method Pause(keys: seq<Key>)
      modifies this`paused
      ensures View() == old(View()).(line := old(LineView()).(paused := old(paused) + C.Members(keys)))
    {
      for i := 0 to |keys|
        invariant paused == old(paused) + C.Members(keys[..i])
      {
        paused := paused + {keys[i]};
        assert keys[..i + 1] == keys[..i] + [keys[i]];
      }
      assert keys[..|keys|] == keys;
    }

    method Resume(keys: seq<Key>, parks: Parks)
      requires Shaped(LineView())
      modifies this
      ensures View() == C.Unpaused(old(View()), keys, parks)
    {
      ghost var s := View();
      for i := 0 to |keys|
        invariant C.Resumed(LineView(), keys[i..]) == C.Resumed(s.line, keys)
        invariant View() == s.(line := LineView())
      {
        paused := paused - {keys[i]};
        MarkReady(keys[i]);
        assert keys[i..][1..] == keys[i + 1..];
      }
      C.ResumedShaped(s.line, keys);
      Dispatch(parks);
    }

    /** Drops one partition's queue, and with it its place in line. */
    method Empty(key: Key)
      requires Shaped(LineView())
      modifies this`queues, this`queued, this`waiting, this`ready
      ensures LineView() == C.Emptied(old(LineView()), {key})
    {
      TotalRemove(queues, key);
      assert key !in queues ==> queues - {key} == queues;
      if key in queues { queued, queues := queued - |queues[key]|, queues - {key}; }
      if key in waiting {
        waiting := waiting - {key};
        var i := IndexOf(ready, key);
        C.RemainingCut(ready, i);
        ready := ready[..i] + ready[i + 1..];
      } else {
        assert waiting - {key} == waiting;
        C.RemainingAll(ready, key);
      }
    }

    /** Drops one partition altogether: queue, place in line, marks and pause. */
    method Forget(key: Key)
      requires Shaped(LineView())
      modifies this`queues, this`queued, this`waiting, this`ready, this`lastQueued, this`watermarks, this`epochs, this`paused
      ensures LineView() == C.Emptied(old(LineView()), {key}).(paused := old(paused) - {key}) && Shaped(LineView())
      ensures lastQueued == old(lastQueued) - {key} && epochs == old(epochs) - {key}
      ensures watermarks == C.Outdated(old(watermarks), {key})
    {
      C.DroppedShaped(LineView(), {key});
      Empty(key);
      lastQueued, epochs, paused := lastQueued - {key}, epochs - {key}, paused - {key};
      watermarks := watermarks[key := Tag(watermarks, key) + 1];
    }

    /** The group was joined again: what is lost is dropped and told, and a partition that came back gets a new stream. */
    method Join() returns (lostNow: set<Key>)
      requires Shaped(LineView()) && assignments.Some?
      modifies this
      ensures View() == C.Joined(old(View()), old(assignments).value)
      ensures lostNow == C.Gone(old(View()), old(assignments).value)
    {
      ghost var s := View();
      var now := assignments.value;
      lostNow := DropLost(now);
      var regained := Regain(now);
      holds := now;
      assert View() == C.TakenOver(s, now);
      if regained { Rotate(); }
      Release();
    }

    /** Whether anything that was lost came back, which takes it off the list. */
    method Regain(now: set<Key>) returns (regained: bool)
      modifies this`lost
      ensures lost == old(lost) - now && regained == (old(lost) * now != {})
    {
      regained := false;
      var rest := lost;
      while rest != {}
        invariant forall k :: k in lost <==> k in old(lost) && (k !in now || k in rest)
        invariant forall k :: k in rest ==> k in old(lost)
        invariant regained <==> exists k :: k in old(lost) && k in now && k !in rest
        decreases rest
      {
        var key :| key in rest;
        rest := rest - {key};
        if key in now {
          lost := lost - {key};
          regained := true;
        }
      }
      if regained {
        ghost var k :| k in old(lost) && k in now;
        assert k in old(lost) * now;
      }
    }

    method Lose(key: Key)
      requires Shaped(LineView())
      modifies this
      ensures View() == C.Lost(old(View()), {key}) && Shaped(LineView())
    {
      Forget(key);
      NoteLoss(key);
    }

    method NoteLoss(key: Key)
      modifies this`lost, this`lostUnder
      ensures View().holding == C.Noted(old(View()).holding, {key})
    {
      lost := lost + {key};
      lostUnder := lostUnder[key := streams];
    }

    method DropLost(now: set<Key>) returns (lostNow: set<Key>)
      requires Shaped(LineView())
      modifies this
      ensures lostNow == C.Gone(old(View()), now) && View() == C.Lost(old(View()), lostNow) && Shaped(LineView())
    {
      ghost var s := View();
      var held := holds + queues.Keys + lastQueued.Keys + epochs + paused;
      lostNow := {};
      C.LostNone(s);
      while held != {}
        invariant forall k :: k in held ==> k !in lostNow
        invariant forall k :: k in lostNow || (k in held && k !in now) <==> k in C.Gone(s, now)
        invariant View() == C.Lost(s, lostNow) && Shaped(LineView())
        decreases held
      {
        var key :| key in held;
        held := held - {key};
        if key !in now {
          C.LostTwice(s, lostNow, key);
          Lose(key);
          lostNow := lostNow + {key};
        }
      }
    }

    method EmptyAll()
      requires Shaped(LineView())
      modifies this`queues, this`queued, this`waiting, this`ready
      ensures LineView() == C.Emptied(old(LineView()), old(queues).Keys)
    {
      ghost var l := LineView();
      ghost var dropped: set<Key> := {};
      var rest := queues.Keys;
      C.EmptiedNone(l);
      while rest != {}
        invariant dropped + rest == l.queues.Keys
        invariant LineView() == C.Emptied(l, dropped) && Shaped(LineView())
        decreases rest
      {
        var key :| key in rest;
        rest := rest - {key};
        C.EmptiedTwice(l, dropped, key);
        C.EmptiedShaped(LineView(), {key});
        Empty(key);
        dropped := dropped + {key};
      }
    }

    /** A new stream will be opened: what the old one left queued is dropped, and what runs already is not touched. */
    method Rotate()
      requires Shaped(LineView())
      modifies this
      ensures View() == C.Rotated(old(View()))
    {
      if !current || stopped { return; }
      EmptyAll();
      EndStream();
    }

    /** The stream is not the one in use any more: no offset of it counts as seen, and nothing was lost under the next one yet. */
    method EndStream()
      modifies this`watermarks, this`lastQueued, this`lost, this`current
      ensures LineView() == old(LineView())
      ensures watermarks == C.Outdated(old(watermarks), old(lastQueued).Keys) && lastQueued == map[] && lost == {} && !current
    {
      watermarks := C.Outdated(watermarks, lastQueued.Keys);
      lastQueued, lost, current := map[], {}, false;
    }

    method BeginStop()
      modifies this`stopped, this`reader, this`current
      ensures View() == C.Stopping(old(View()))
    {
      stopped := true;
      Release();
      current := false;
    }

    method EndStop()
      modifies this`queues, this`ready, this`waiting, this`queued
      ensures View() == C.StopDone(old(View()))
    {
      queues, ready, waiting, queued := map[], [], {}, 0;
    }

    /** A stream opened by the read loop: it starts from what is committed, for all that is held now. */
    method Open()
      modifies this`reader, this`current, this`streams, this`holds, this`lost
      ensures View() == C.Opened(old(View()))
    {
      reader, current, streams := Reading, true, streams + 1;
      holds := if assignments.Some? then assignments.value else {};
      lost := {};
      assert LineView() == old(LineView());
    }
  }

  method IndexOf(line: seq<Key>, key: Key) returns (i: nat)
    requires key in line
    ensures i < |line| && line[i] == key && key !in line[..i]
  {
    i := 0;
    while line[i] != key
      invariant i < |line| && key !in line[..i]
      decreases |line| - i
    {
      i := i + 1;
    }
  }
}
