/**
 * Starting and stopping a consumer: a start that may fail, hang or be
 * overtaken by a stop at every await, and a stop that waits for it only so
 * long. Each step is what runs between two awaits.
 */
module Lifecycle {
  import opened Basics

  datatype Mode = Idle | Starting | Running | Stopping | Stopped

  /** Where `start` stands. */
  datatype Start =
    | NotYet
    | Connecting
    | Preparing
    | Joining          // the client opens the consumptions
    | JoinDone         // all opened, the handles kept
    | Closing          // one failed to open: the others are being closed
    | AwaitingStop     // a stop began meanwhile: it goes first
    | Leaving
    | Over(ok: bool)

  /** Where `doStop` stands. */
  datatype Stop = NoStop | AwaitingStart | Draining | Departing | Finished

  type Id = nat

  /** `joined` are the consumptions the client opened; `stops` counts the times each one's `stop` was called. */
  datatype State = State(
    mode: Mode,
    ready: bool,
    start: Start,
    stop: Stop,
    pending: set<Id>,
    joined: set<Id>,
    failed: bool,
    handles: set<Id>,
    stops: map<Id, nat>,
    announced: nat)

  datatype Step =
    | Begin
    | Connected(ok: bool)
    | Prepared(ok: bool, consumptions: set<Id>)
    | Opened(id: Id)
    | OpenFailed(id: Id)
    | Join(canPark: bool)
    | Closed
    | GoOn
    | LeaveLate
    | LeftLate
    | StopBegins
    | StartSeen
    | GiveUp
    | Drained
    | Departed

  function Calls(stops: map<Id, nat>, id: Id): nat { if id in stops then stops[id] else 0 }

  /** Every handle's `stop` called. */
  function StopAll(s: State, ids: set<Id>): map<Id, nat> {
    map id | id in s.stops.Keys + ids :: Calls(s.stops, id) + (if id in ids then 1 else 0)
  }

  predicate Can(s: State, step: Step) {
    match step
    case Begin => s.mode == Idle && s.start == NotYet
    case Connected(_) => s.start == Connecting
    case Prepared(_, _) => s.start == Preparing
    case Opened(id) => s.start == Joining && id in s.pending
    case OpenFailed(id) => s.start == Joining && id in s.pending
    case Join(_) => s.start == Joining && s.pending == {}
    case Closed => s.start == Closing
    case GoOn => s.start == JoinDone
    case LeaveLate => s.start == AwaitingStop && s.stop == Finished
    case LeftLate => s.start == Leaving
    case StopBegins => s.stop == NoStop
    case StartSeen => s.stop == AwaitingStart && s.ready
    case GiveUp => s.stop == AwaitingStart
    case Drained => s.stop == Draining
    case Departed => s.stop == Departing
  }

  function StartFails(s: State): State { s.(mode := Stopped, ready := true, start := Over(false)) }

  /** What `doStop` does once it need not wait for the start. */
  function StopGoesOn(s: State): State {
    if s.mode == Idle || s.mode == Stopped then s.(mode := Stopped, stop := Finished)
    else s.(mode := Stopping, stop := Draining)
  }

  function Next(s: State, step: Step): State
    requires Can(s, step)
  {
    match step
    case Begin => s.(mode := Starting, start := Connecting)
    case Connected(ok) => if !ok || s.stop != NoStop then StartFails(s) else s.(start := Preparing)
    case Prepared(ok, consumptions) =>
      if !ok || s.stop != NoStop then StartFails(s) else s.(start := Joining, pending := consumptions)
    case Opened(id) => s.(pending := s.pending - {id}, joined := s.joined + {id})
    case OpenFailed(id) => s.(pending := s.pending - {id}, failed := true)
    case Join(canPark) =>
      if s.failed || !canPark then s.(mode := Stopped, ready := true, start := Closing, stops := StopAll(s, s.joined))
      else s.(start := JoinDone, handles := s.joined)
    case Closed => StartFails(s)
    case GoOn =>
      if s.stop != NoStop then s.(ready := true, start := AwaitingStop)
      else s.(mode := Running, ready := true, start := Over(true))
    case LeaveLate => s.(start := Leaving, stops := StopAll(s, s.handles), handles := {})
    case LeftLate => s.(start := Over(false))
    case StopBegins => if s.mode == Starting then s.(stop := AwaitingStart) else StopGoesOn(s)
    case StartSeen => StopGoesOn(s)
    case GiveUp => s.(mode := Stopped, stop := Finished, announced := s.announced + 1)
    case Drained => s.(stop := Departing, stops := StopAll(s, s.handles), handles := {})
    case Departed => s.(mode := Stopped, stop := Finished, announced := s.announced + 1)
  }

  /** Whether the start could still open or close consumptions itself. */
  predicate Under(s: State) { s.start in {NotYet, Connecting, Preparing} }

  /** What was opened is with the start, or kept as a handle, or was stopped once. */
  ghost predicate Accounted(s: State) {
    && s.handles <= s.joined
    && (forall id :: id !in s.joined ==> Calls(s.stops, id) == 0)
    && (Under(s) ==> s.joined == {} && s.handles == {})
    && (s.start == Joining ==> s.handles == {} && forall id :: Calls(s.stops, id) == 0)
    && (s.start !in {NotYet, Connecting, Preparing, Joining} ==>
         forall id :: id in s.joined ==> Calls(s.stops, id) == (if id in s.handles then 0 else 1))
  }

  /** How the two may stand to each other. */
  predicate Together(s: State) {
    && (s.mode == Running ==> s.stop == NoStop && s.start == Over(true))
    && (s.start == NotYet <==> s.mode == Idle || (s.mode == Stopped && s.start == NotYet))
    && (s.mode == Idle ==> s.stop == NoStop)
    && (s.start == NotYet ==> !s.ready)
    && (s.mode == Starting ==> s.stop in {NoStop, AwaitingStart})
    && (s.mode == Starting ==> s.start in {Connecting, Preparing, Joining, JoinDone, AwaitingStop})
    && (s.start in {Connecting, Preparing, Joining, JoinDone} ==> (s.mode == Starting && !s.ready) || (s.mode == Stopped && s.stop == Finished))
    && (s.start == AwaitingStop ==> s.ready && s.stop != NoStop && s.mode in {Starting, Stopping, Stopped})
    && (s.start == Closing || s.start == Over(false) ==> s.mode == Stopped)
    && (s.start == Leaving ==> s.stop == Finished && s.mode == Stopped)
    && (s.mode == Stopping <==> s.stop in {Draining, Departing})
    && (s.stop in {Draining, Departing} ==> s.start in {AwaitingStop, Over(true)})
    && (s.stop == Finished ==> s.mode == Stopped)
    && (s.announced == 0 || (s.announced == 1 && s.stop == Finished))
    && (s.start in {Closing, Leaving, Over(false)} ==> s.handles == {})
    && (s.start == Over(true) && s.stop == Finished ==> s.handles == {})
    && (s.stop == Departing ==> s.handles == {})
    && (s.start in {Closing, AwaitingStop, Leaving} || s.start.Over? ==> s.ready)
    && (s.stop == AwaitingStart ==> s.start !in {NotYet, Leaving, Over(true)})
    && (s.start == Over(true) && s.mode == Stopped ==> s.stop == Finished)
    && (s.start == Over(true) ==> s.mode in {Running, Stopping, Stopped})
  }

  ghost predicate Valid(s: State) { Accounted(s) && Together(s) }

  function Initial(): State { State(Idle, false, NotYet, NoStop, {}, {}, false, {}, map[], 0) }

  lemma StepKeepsTogether(s: State, step: Step)
    requires Valid(s) && Can(s, step)
    ensures Together(Next(s, step))
  {
  }

  lemma StepKeepsAccounted(s: State, step: Step)
    requires Valid(s) && Can(s, step)
    ensures Accounted(Next(s, step))
  {
  }

  // ------------------------------------------------------------- whole runs

  ghost predicate Playable(s: State, steps: seq<Step>)
    decreases |steps|
  {
    steps == [] || (Can(s, steps[0]) && Playable(Next(s, steps[0]), steps[1..]))
  }

  ghost function Play(s: State, steps: seq<Step>): State
    requires Playable(s, steps)
    decreases |steps|
  {
    if steps == [] then s else Play(Next(s, steps[0]), steps[1..])
  }

  lemma {:induction false} RunKeeps(s: State, steps: seq<Step>)
    requires Valid(s) && Playable(s, steps)
    ensures Valid(Play(s, steps))
    decreases |steps|
  {
    if steps != [] {
      StepKeepsTogether(s, steps[0]);
      StepKeepsAccounted(s, steps[0]);
      RunKeeps(Next(s, steps[0]), steps[1..]);
    }
  }

  /**
   * However a start and a stop overtake each other: no consumption is ever
   * stopped twice, the stop is announced at most once, and once the start
   * and a stop have both settled every consumption the client opened was
   * stopped, exactly once. A start that failed leaves none open either.
   */
  lemma StoppedExactlyOnce(steps: seq<Step>, id: Id)
    requires Playable(Initial(), steps)
    ensures var r := Play(Initial(), steps);
            && Calls(r.stops, id) <= 1 && r.announced <= 1
            && (id !in r.joined ==> Calls(r.stops, id) == 0)
            && (r.start.Over? && (r.stop == Finished || !r.start.ok) && id in r.joined ==> Calls(r.stops, id) == 1)
            && (r.start.Over? && (r.stop == Finished || !r.start.ok) ==> r.handles == {} && r.mode == Stopped)
  {
    RunKeeps(Initial(), steps);
  }

  /** Once a stop began, the consumer never runs again. */
  lemma {:induction false} NeverRunsAgain(s: State, steps: seq<Step>)
    requires Valid(s) && Playable(s, steps) && s.stop != NoStop
    ensures Play(s, steps).mode != Running && Play(s, steps).stop != NoStop
    decreases |steps|
  {
    if steps != [] {
      StepKeepsTogether(s, steps[0]);
      StepKeepsAccounted(s, steps[0]);
      NeverRunsAgain(Next(s, steps[0]), steps[1..]);
    }
  }

  // ------------------------------------------------------- how a start ends

  /** Something the start needs did not work out. */
  predicate Trouble(step: Step) {
    match step
    case Connected(ok) => !ok
    case Prepared(ok, _) => !ok
    case OpenFailed(_) => true
    case Join(canPark) => !canPark
    case _ => false
  }

  /** Before the start looks for a stop the last time, something does not work out or a stop begins. */
  predicate Spoilt(steps: seq<Step>)
    decreases |steps|
  {
    steps != [] && !steps[0].GoOn? && (Trouble(steps[0]) || steps[0].StopBegins? || Spoilt(steps[1..]))
  }

  /** How the start will end, seen from a state on its way. */
  ghost predicate WillRun(s: State, steps: seq<Step>) {
    if s.start.Over? then s.start.ok
    else s.start in {NotYet, Connecting, Preparing, Joining, JoinDone} && s.stop == NoStop && !s.failed && !Spoilt(steps)
  }

  /** A start that failed to open something gets no further than closing the rest. */
  ghost predicate FailureStops(s: State) { s.failed ==> s.start !in {NotYet, Connecting, Preparing, JoinDone, Over(true)} }

  lemma WillRunOn(s: State, steps: seq<Step>)
    requires Valid(s) && FailureStops(s) && steps != [] && Can(s, steps[0])
    ensures FailureStops(Next(s, steps[0]))
    ensures WillRun(s, steps) == WillRun(Next(s, steps[0]), steps[1..])
  {
  }

  lemma {:induction false} RunWillRun(s: State, steps: seq<Step>)
    requires Valid(s) && FailureStops(s) && Playable(s, steps) && Play(s, steps).start.Over?
    ensures Play(s, steps).start == Over(WillRun(s, steps))
    decreases |steps|
  {
    if steps != [] {
      WillRunOn(s, steps);
      StepKeepsTogether(s, steps[0]);
      StepKeepsAccounted(s, steps[0]);
      RunWillRun(Next(s, steps[0]), steps[1..]);
    }
  }

  /**
   * A start that settled succeeded if and only if the client connected, the
   * topics were there, every consumption opened and could pause where that is
   * needed, and no stop began before all that was done.
   */
  lemma StartsExactly(steps: seq<Step>)
    requires Playable(Initial(), steps) && Play(Initial(), steps).start.Over?
    ensures Play(Initial(), steps).start == Over(!Spoilt(steps))
  {
    RunWillRun(Initial(), steps);
  }

  /** A stop that ran its course, or gave up waiting for the start, is announced, and nothing else is. */
  lemma {:induction false} AnnouncedExactly(s: State, steps: seq<Step>)
    requires Valid(s) && Playable(s, steps)
    ensures Play(s, steps).announced ==
            s.announced + (if Departed in steps || GiveUp in steps then 1 else 0)
    decreases |steps|
  {
    if steps != [] {
      StepKeepsTogether(s, steps[0]);
      StepKeepsAccounted(s, steps[0]);
      AnnouncedExactly(Next(s, steps[0]), steps[1..]);
      RunKeeps(Next(s, steps[0]), steps[1..]);
      assert forall x :: x in steps <==> x == steps[0] || x in steps[1..];
    }
  }

  /** A stop begun during the start never hangs on it: it can give up, and whatever the start opens later is closed by the start. */
  lemma StopNeedNotWait(s: State)
    requires Valid(s) && s.stop == AwaitingStart
    ensures Can(s, GiveUp) && Next(s, GiveUp).stop == Finished && Next(s, GiveUp).mode == Stopped
    ensures s.ready || s.start in {Connecting, Preparing, Joining, JoinDone}
  {
  }
}
