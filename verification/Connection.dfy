/** Connecting and shutting down: whatever overtakes what, a client that connected is released exactly once. */
module Connection {
  import opened Basics

  datatype Mode = Idle | Connecting | Connected | Closing | Closed

  /** Where the shutdown stands: not begun, stopping the consumers, waiting for the connect, then for the sends, releasing the client, over. */
  datatype Shutdown = NotBegun | Stopping | AwaitingConnect | AwaitingSends | Releasing | Over

  /** `attempts` counts adapter connects in flight, `landed` those that succeeded, `released` the disconnects. */
  datatype State = State(mode: Mode, attempts: nat, connected: bool, shutdown: Shutdown, landed: nat, released: nat, announced: nat)

  datatype Step =
    | Connect
    | Landed
    | Refused
    | ShutDown
    | ConsumersStopped
    | ConnectAwaited(settled: bool)   // settled, or the time is up
    | SendsSettled                    // settled, or the time is up
    | Disconnected

  predicate Can(s: State, step: Step) {
    match step
    case Connect => true
    case Landed | Refused => s.attempts > 0
    case ShutDown => s.shutdown == NotBegun
    case ConsumersStopped => s.shutdown == Stopping
    case ConnectAwaited(settled) => s.shutdown == AwaitingConnect && (settled ==> s.attempts == 0)
    case SendsSettled => s.shutdown == AwaitingSends
    case Disconnected => s.shutdown == Releasing
  }

  function Next(s: State, step: Step): State
    requires Can(s, step)
  {
    match step
    case Connect =>
      // Single flight: one that is pending or done serves every caller; a closed harbor refuses.
      if s.mode == Closing || s.mode == Closed || s.attempts > 0 || s.connected then s
      else s.(mode := Connecting, attempts := 1)
    case Landed =>
      var t := s.(attempts := s.attempts - 1, landed := s.landed + 1);
      if s.mode == Closed then t.(released := t.released + 1)
      else t.(connected := true, mode := if s.mode == Connecting then Connected else s.mode,
              announced := if s.mode == Connecting then s.announced + 1 else s.announced)
    case Refused => s.(attempts := s.attempts - 1, mode := if s.mode == Connecting then Idle else s.mode)
    case ShutDown => s.(mode := Closing, shutdown := Stopping)
    case ConsumersStopped => s.(shutdown := if s.attempts > 0 then AwaitingConnect else AwaitingSends)
    case ConnectAwaited(_) => s.(shutdown := AwaitingSends)
    case SendsSettled =>
      if s.connected then s.(shutdown := Releasing, released := s.released + 1)
      else s.(shutdown := Over, mode := Closed)
    case Disconnected => s.(shutdown := Over, mode := Closed)
  }

  predicate Valid(s: State) {
    && s.attempts + s.landed <= 1
    && (s.mode == Connecting ==> s.attempts == 1) && (s.mode in {Idle, Connected} ==> s.attempts == 0)
    && (s.mode == Connected ==> s.connected) && (s.mode in {Idle, Connecting} ==> !s.connected)
    && (s.shutdown == NotBegun <==> s.mode in {Idle, Connecting, Connected})
    && (s.mode == Closed <==> s.shutdown == Over)
    && (s.connected ==> s.attempts == 0 && s.landed == 1)
    && (!s.connected ==> s.landed == s.released)
    && s.released <= s.landed
    && (s.connected ==> (s.released == 1 <==> s.shutdown in {Releasing, Over}))
    && (s.shutdown == Releasing ==> s.connected)
    && (!s.connected && s.mode != Closed ==> s.landed == 0)
    && (s.landed == 1 ==> s.attempts == 0)
    && s.announced <= s.landed
  }

  lemma StepKeeps(s: State, step: Step)
    requires Valid(s) && Can(s, step)
    ensures Valid(Next(s, step))
  {
  }

  ghost predicate Playable(s: State, steps: seq<Step>)
    decreases |steps|
  {
    steps == [] || (Can(s, steps[0]) && Playable(Next(s, steps[0]), steps[1..]))
  }

  ghost function Play(s: State, steps: seq<Step>): State
    requires Playable(s, steps)
    decreases |steps|
  {
    if steps == [] then s else Play(Next(s, steps[0]), steps[1..])
  }

  lemma {:induction false} RunKeeps(s: State, steps: seq<Step>)
    requires Valid(s) && Playable(s, steps)
    ensures Valid(Play(s, steps))
    decreases |steps|
  {
    if steps != [] {
      StepKeeps(s, steps[0]);
      RunKeeps(Next(s, steps[0]), steps[1..]);
    }
  }

  /** A connect begins exactly when nobody connects, nobody connected, and the harbor is not being shut down. */
  lemma ConnectsExactly(s: State, step: Step)
    requires Valid(s) && Can(s, step)
    ensures Next(s, step).attempts > s.attempts <==>
            step.Connect? && s.attempts == 0 && s.landed == 0 && s.shutdown == NotBegun
  {
  }

  /** The sends are waited for, and the client is let go, while a connect may still land. */
  predicate GaveUp(s: State) { s.attempts > 0 && s.shutdown in {AwaitingSends, Releasing, Over} }

  /** Only a shutdown whose time was up leaves a connect behind. */
  lemma {:induction false} ShutdownWaits(s: State, steps: seq<Step>)
    requires Valid(s) && Playable(s, steps) && !GaveUp(s)
    ensures GaveUp(Play(s, steps)) ==> ConnectAwaited(false) in steps
    decreases |steps|
  {
    if steps != [] {
      StepKeeps(s, steps[0]);
      if !GaveUp(Next(s, steps[0])) { ShutdownWaits(Next(s, steps[0]), steps[1..]); }
    }
  }

  /** A client that connects before the shutdown has let go of it serves the harbor; one that connects later is released at once. */
  lemma LandsExactly(s: State)
    requires Valid(s) && Can(s, Landed)
    ensures var r := Next(s, Landed);
            if s.shutdown == Over then !r.connected && r.released == 1
            else r.connected && r.released == 0 && (r.mode == Connected <==> s.shutdown == NotBegun)
  {
  }

  /**
   * However connects and a shutdown interleave: never two connects at once,
   * never a client released that did not connect, and once the shutdown is
   * over and no connect is pending, every one that landed was released.
   */
  lemma ReleasedExactlyOnce(steps: seq<Step>)
    requires Playable(State(Idle, 0, false, NotBegun, 0, 0, 0), steps)
    ensures var r := Play(State(Idle, 0, false, NotBegun, 0, 0, 0), steps);
            && r.attempts <= 1 && r.landed <= 1 && r.released <= r.landed
            && (r.shutdown == Over && r.attempts == 0 ==> r.released == r.landed)
  {
    RunKeeps(State(Idle, 0, false, NotBegun, 0, 0, 0), steps);
  }
}
