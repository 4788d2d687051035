/**
 * The gate parked messages pass on their way back in: as many at a time as
 * the consumption delivers, in line behind each other, with any of them
 * discarded at any moment and newcomers free to take a slot that is free.
 */
module Slots {
  import opened Basics

  type Id = nat

  /**
   * `active` slots are taken; `waiting` stand in line; `woken` were woken
   * and have not gone on yet; `aborted` were discarded while they waited.
   */
  datatype Gate = Gate(active: int, waiting: seq<Id>, woken: set<Id>, aborted: set<Id>)

  datatype Step =
    | Arrive(id: Id)      // a parked message is due
    | GoOn(id: Id)        // a woken one looks again
    | Discard(id: Id)     // a stop or a revocation drops it
    | Free                // one of those inside is done

  predicate Known(g: Gate, id: Id) { id in g.waiting || id in g.woken || id in g.aborted }

  predicate Can(g: Gate, step: Step) {
    match step
    case Arrive(id) => !Known(g, id)
    case GoOn(id) => id in g.woken
    case Discard(id) => id in g.waiting || id in g.woken
    case Free => g.active > 0
  }

  function WakeFirst(g: Gate): Gate {
    if g.waiting == [] then g else g.(waiting := g.waiting[1..], woken := g.woken + {g.waiting[0]})
  }

  function Without(s: seq<Id>, id: Id): seq<Id> {
    if s == [] then [] else if s[0] == id then s[1..] else [s[0]] + Without(s[1..], id)
  }

  /** One look at the gate: in, in line, or, being discarded, gone. */
  function Look(g: Gate, concurrency: nat, id: Id): Gate {
    if id in g.aborted then (if g.active < concurrency then WakeFirst(g) else g)
    else if g.active >= concurrency then g.(waiting := g.waiting + [id])
    else g.(active := g.active + 1)
  }

  function Next(g: Gate, concurrency: nat, step: Step): Gate {
    match step
    case Arrive(id) => Look(g, concurrency, id)
    case GoOn(id) => Look(g.(woken := g.woken - {id}), concurrency, id)
    case Discard(id) =>
      g.(waiting := Without(g.waiting, id), woken := if id in g.waiting then g.woken + {id} else g.woken, aborted := g.aborted + {id})
    case Free => WakeFirst(g.(active := g.active - 1))
  }

  /** Never more inside than allowed, nobody in line twice or in line and woken, and no wakeup lost. */
  ghost predicate GateOk(g: Gate, concurrency: nat) {
    && 0 <= g.active <= concurrency
    && (forall i, j :: 0 <= i < j < |g.waiting| ==> g.waiting[i] != g.waiting[j])
    && (forall id :: id in g.waiting ==> id !in g.woken && id !in g.aborted)
    && (g.waiting != [] ==> g.active + |g.woken| >= concurrency)
  }

  lemma {:induction false} WithoutIs(s: seq<Id>, id: Id)
    requires forall i, j :: 0 <= i < j < |s| ==> s[i] != s[j]
    ensures forall x :: x in Without(s, id) <==> x in s && x != id
    ensures forall i, j :: 0 <= i < j < |Without(s, id)| ==> Without(s, id)[i] != Without(s, id)[j]
  {
    if s != [] {
      assert s == [s[0]] + s[1..];
      WithoutIs(s[1..], id);
      if s[0] != id {
        var r := Without(s[1..], id);
        forall i | 0 <= i < |r| ensures r[i] != s[0] { assert r[i] in s[1..]; }
      }
    }
  }

  lemma WokenGrows(woken: set<Id>, id: Id)
    ensures |woken + {id}| == |woken| + (if id in woken then 0 else 1)
    ensures |woken - {id}| == |woken| - (if id in woken then 1 else 0)
  {
    if id in woken { assert woken == (woken - {id}) + {id}; assert woken + {id} == woken; } else { assert woken - {id} == woken; }
  }

  lemma WakeKeeps(g: Gate, concurrency: nat)
    requires 0 <= g.active <= concurrency
    requires forall i, j :: 0 <= i < j < |g.waiting| ==> g.waiting[i] != g.waiting[j]
    requires forall id :: id in g.waiting ==> id !in g.woken && id !in g.aborted
    requires g.waiting != [] ==> g.active + |g.woken| + 1 >= concurrency
    ensures GateOk(WakeFirst(g), concurrency)
  {
    if g.waiting != [] {
      WokenGrows(g.woken, g.waiting[0]);
      assert g.waiting[0] in g.waiting;
    }
  }

  /**
   * The bound and the wakeups hold after every step, also when someone is
   * discarded after being woken or a newcomer takes the slot freed for it.
   */
  lemma StepKeeps(g: Gate, concurrency: nat, step: Step)
    requires GateOk(g, concurrency) && Can(g, step)
    ensures GateOk(Next(g, concurrency, step), concurrency)
  {
    match step
    case Arrive(id) =>
    case GoOn(id) =>
      WokenGrows(g.woken, id);
      var h := g.(woken := g.woken - {id});
      if id in g.aborted && g.active < concurrency { WakeKeeps(h, concurrency); }
    case Discard(id) =>
      WithoutIs(g.waiting, id);
      WokenGrows(g.woken, id);
    case Free => WakeKeeps(g.(active := g.active - 1), concurrency);
  }

  /** When nobody woken is left to go on, whoever stands in line stands behind a full house. */
  lemma NobodyForgotten(g: Gate, concurrency: nat)
    requires GateOk(g, concurrency) && g.woken == {} && g.waiting != []
    ensures g.active == concurrency
  {
  }

  /** Only one that was not discarded gets in, and only into a free slot. */
  lemma EntersFree(g: Gate, concurrency: nat, step: Step)
    requires GateOk(g, concurrency) && Can(g, step) && Next(g, concurrency, step).active > g.active
    ensures (step.Arrive? || step.GoOn?) && step.id !in g.aborted && g.active < concurrency
  {
  }

  // ----------------------------------------------------------- first come

  /** `x` stands before `y`. */
  ghost predicate Before(line: seq<Id>, x: Id, y: Id) {
    exists i, j :: 0 <= i < j < |line| && line[i] == x && line[j] == y
  }

  lemma {:induction false} WithoutBefore(s: seq<Id>, id: Id, x: Id, y: Id)
    requires Before(s, x, y) && x != id && y != id
    ensures Before(Without(s, id), x, y)
  {
    var i, j :| 0 <= i < j < |s| && s[i] == x && s[j] == y;
    if s[0] == id {
      assert s[1..][i - 1] == x && s[1..][j - 1] == y;
    } else if i == 0 {
      WithoutHas(s[1..], id, y, j - 1);
      var r := Without(s[1..], id);
      var k :| 0 <= k < |r| && r[k] == y;
      assert Without(s, id)[0] == x && Without(s, id)[k + 1] == y;
    } else {
      assert s[1..][i - 1] == x && s[1..][j - 1] == y;
      WithoutBefore(s[1..], id, x, y);
      var r := Without(s[1..], id);
      var k, l :| 0 <= k < l < |r| && r[k] == x && r[l] == y;
      assert Without(s, id)[k + 1] == x && Without(s, id)[l + 1] == y;
    }
  }

  lemma {:induction false} WithoutHas(s: seq<Id>, id: Id, y: Id, j: nat)
    requires j < |s| && s[j] == y && y != id
    ensures y in Without(s, id)
  {
    if s[0] != id && j > 0 { WithoutHas(s[1..], id, y, j - 1); }
    if s[0] == id { assert s[1..][j - 1] == y; }
  }

  /** Those who stay in line keep their places before each other: nobody gets past, a newcomer least of all. */
  lemma InTurn(g: Gate, concurrency: nat, step: Step, x: Id, y: Id)
    requires GateOk(g, concurrency) && Can(g, step)
    requires x in g.waiting && (Before(g.waiting, x, y) || y !in g.waiting)
    requires x in Next(g, concurrency, step).waiting && y in Next(g, concurrency, step).waiting
    ensures Before(Next(g, concurrency, step).waiting, x, y)
  {
    var line := Next(g, concurrency, step).waiting;
    if step.Discard? {
      WithoutIs(g.waiting, step.id);
      WithoutBefore(g.waiting, step.id, x, y);
    } else if line == g.waiting {
    } else if |line| > |g.waiting| {
      JoinsBehind(g.waiting, line, x, y);
    } else {
      assert line == g.waiting[1..];
      var i, j :| 0 <= i < j < |g.waiting| && g.waiting[i] == x && g.waiting[j] == y;
      StillInLine(g.waiting, x, i);
      assert line[i - 1] == x && line[j - 1] == y;
    }
  }

  lemma StillInLine(line: seq<Id>, x: Id, i: nat)
    requires forall i, j :: 0 <= i < j < |line| ==> line[i] != line[j]
    requires i < |line| && line[i] == x && x in line[1..]
    ensures i > 0
  {
  }

  lemma LastOne(was: seq<Id>, line: seq<Id>, j: nat)
    requires |line| == |was| + 1 && line[..|was|] == was && j < |line|
    ensures line[j] in was || j == |was|
  {
    if j < |was| { assert line[..|was|][j] == was[j]; }
  }

  lemma JoinsBehind(was: seq<Id>, line: seq<Id>, x: Id, y: Id)
    requires |line| == |was| + 1 && line[..|was|] == was
    requires x in was && y in line && (Before(was, x, y) || y !in was)
    ensures Before(line, x, y)
  {
    if y in was {
      var i, j :| 0 <= i < j < |was| && was[i] == x && was[j] == y;
      assert line[..|was|][i] == x && line[..|was|][j] == y;
    } else {
      var i :| 0 <= i < |was| && was[i] == x;
      var j :| 0 <= j < |line| && line[j] == y;
      assert line[..|was|][i] == x;
      LastOne(was, line, j);
    }
  }

  /** Whoever leaves the line was discarded, or stood first in it and was woken. */
  lemma FirstIsWoken(g: Gate, concurrency: nat, step: Step, x: Id)
    requires GateOk(g, concurrency) && Can(g, step) && x in g.waiting && x !in Next(g, concurrency, step).waiting
    ensures if x in Next(g, concurrency, step).aborted then step == Discard(x)
            else x == g.waiting[0] && x in Next(g, concurrency, step).woken
  {
    if step.Discard? { WithoutIs(g.waiting, step.id); }
  }

  function Run(g: Gate, concurrency: nat, steps: seq<Step>): Gate
    decreases |steps|
  {
    if steps == [] then g else Run(Next(g, concurrency, steps[0]), concurrency, steps[1..])
  }

  predicate Possible(g: Gate, concurrency: nat, steps: seq<Step>)
    decreases |steps|
  {
    steps != [] ==> Can(g, steps[0]) && Possible(Next(g, concurrency, steps[0]), concurrency, steps[1..])
  }

  /** `x` is in line all along. */
  predicate Waits(g: Gate, concurrency: nat, steps: seq<Step>, x: Id)
    decreases |steps|
  {
    && x in g.waiting
    && (steps != [] ==> Waits(Next(g, concurrency, steps[0]), concurrency, steps[1..], x))
  }

  /** Over any run: while one waits, nobody behind it leaves the line but to be discarded, and whoever comes stands behind it. */
  lemma {:induction false} FirstCome(g: Gate, concurrency: nat, steps: seq<Step>, x: Id, y: Id)
    requires GateOk(g, concurrency) && Possible(g, concurrency, steps) && Waits(g, concurrency, steps, x)
    requires Before(g.waiting, x, y) || y in g.aborted
    ensures var h := Run(g, concurrency, steps); Before(h.waiting, x, y) || y in h.aborted
    decreases |steps|
  {
    if steps != [] {
      var h := Next(g, concurrency, steps[0]);
      StepKeeps(g, concurrency, steps[0]);
      if y !in g.aborted { BehindStays(g, concurrency, steps[0], x, y); }
      FirstCome(h, concurrency, steps[1..], x, y);
    }
  }

  lemma BehindNotFirst(line: seq<Id>, x: Id, y: Id)
    requires forall i, j :: 0 <= i < j < |line| ==> line[i] != line[j]
    requires Before(line, x, y)
    ensures y in line && y != line[0]
  {
    var i, j :| 0 <= i < j < |line| && line[i] == x && line[j] == y;
    assert line[0] != line[j];
  }

  lemma BehindStays(g: Gate, concurrency: nat, step: Step, x: Id, y: Id)
    requires GateOk(g, concurrency) && Can(g, step) && Before(g.waiting, x, y) && x in Next(g, concurrency, step).waiting
    ensures var h := Next(g, concurrency, step); Before(h.waiting, x, y) || y in h.aborted
  {
    var h := Next(g, concurrency, step);
    if y in h.waiting {
      InTurn(g, concurrency, step, x, y);
    } else {
      BehindNotFirst(g.waiting, x, y);
      FirstIsWoken(g, concurrency, step, y);
    }
  }

  /** One consumption's gate, updated in place. */
  class SlotGate {
    const concurrency: nat
    var active: int
    var waiting: seq<Id>
    ghost var woken: set<Id>
    ghost var aborted: set<Id>

    ghost function View(): Gate
      reads this
    {
      Gate(active, waiting, woken, aborted)
    }

    constructor (concurrency: nat)
      ensures View() == Gate(0, [], {}, {}) && this.concurrency == concurrency && GateOk(View(), concurrency)
    {
      this.concurrency := concurrency;
      active, waiting, woken, aborted := 0, [], {}, {};
    }

    /** Whether the caller is in; otherwise it waits, or is done if it was discarded. */
    method TakeSlot(id: Id, discarded: bool) returns (inside: bool)
      requires discarded == (id in aborted)
      modifies this
      ensures View() == Look(old(View()), concurrency, id)
      ensures inside <==> active > old(active)
    {
      if active >= concurrency && !discarded {
        waiting := waiting + [id];
        return false;
      }
      if discarded {
        if active < concurrency { Wake(); }
        return false;
      }
      active := active + 1;
      return true;
    }

    method Wake()
      modifies this`waiting, this`woken
      ensures View() == WakeFirst(old(View()))
    {
      if waiting == [] { return; }
      woken := woken + {waiting[0]};
      waiting := waiting[1..];
    }

    method FreeSlot()
      modifies this
      ensures View() == Next(old(View()), concurrency, Free)
    {
      active := active - 1;
      Wake();
    }
  }
}
