/**
 * The tracking headers a message carries down its ladder: written on a hop,
 * stamped, merged with what an instrumentation hook returns, decoded from the
 * wire and read back as network input.
 */
module Headers {
  import opened Basics

  type HeaderMap = map<string, string>

  function Get(h: HeaderMap, name: string): Option<string> {
    if name in h then Some(h[name]) else None
  }

  datatype Names = Names(prefix: string)
  {
    function CorrelationId(): string { prefix + "correlation-id" }
    function ProducedAt(): string { prefix + "produced-at" }
    function Producer(): string { prefix + "producer" }
    function RetryCount(): string { prefix + "retry-count" }
    function OriginalTopic(): string { prefix + "original-topic" }
    function FirstFailureAt(): string { prefix + "first-failure-at" }
    function LastError(): string { prefix + "last-error" }
    function DeadLetteredAt(): string { prefix + "dead-lettered-at" }
    function RedrivenFrom(): string { prefix + "redriven-from" }
    function RedrivenAt(): string { prefix + "redriven-at" }

    /** Every name the harbor writes, and the prefix that `Object.values` lists next to them. */
    function All(): set<string> {
      {prefix, CorrelationId(), ProducedAt(), Producer(), RetryCount(), OriginalTopic(), FirstFailureAt(), LastError(),
       DeadLetteredAt(), RedrivenFrom(), RedrivenAt()}
    }
  }

  /** How an instant is written and read: ISO-8601 text on both sides. */
  datatype Instants = Instants(iso: int -> string, parse: string -> Option<int>)
  {
    ghost predicate Faithful() {
      forall t :: parse(iso(t)) == Some(t) && !Blank(iso(t))
    }
  }

  // ------------------------------------------------------------------ text

  /** What `trim()` removes: white space and line terminators. */
  predicate IsSpace(c: char) {
    || '\t' <= c <= '\r' || c == ' ' || c == '\U{00A0}' || c == '\U{1680}'
    || '\U{2000}' <= c <= '\U{200A}' || c == '\U{2028}' || c == '\U{2029}'
    || c == '\U{202F}' || c == '\U{205F}' || c == '\U{3000}' || c == '\U{FEFF}'
  }

  predicate IsDigit(c: char) { '0' <= c <= '9' }

  function Trim(s: string): string
  {
    if s != [] && IsSpace(s[0]) then Trim(s[1..])
    else if s != [] && IsSpace(s[|s| - 1]) then Trim(s[..|s| - 1])
    else s
  }

  predicate Blank(s: string) { Trim(s) == "" }

  function NonBlank(v: Option<string>): Option<string> {
    if v.Some? && !Blank(v.value) then v else None
  }

  function Digits(n: nat): string {
    (if n < 10 then "" else Digits(n / 10)) + ['0' + (n % 10) as char]
  }

  function Value(s: string): nat
    requires forall c :: c in s ==> IsDigit(c)
  {
    if s == [] then 0 else assert IsDigit(s[|s| - 1]); 10 * Value(s[..|s| - 1]) + (s[|s| - 1] as int - '0' as int)
  }

  /** A count is read from one to nine decimal digits; any other text is no count. */
  function ParseCount(v: Option<string>): Option<nat> {
    var text := if v.Some? then Trim(v.value) else "";
    if 1 <= |text| <= 9 && (forall c :: c in text ==> IsDigit(c)) then Some(Value(text)) else None
  }

  function Pow10(k: nat): nat { if k == 0 then 1 else 10 * Pow10(k - 1) }

  const COUNT_LIMIT: nat := 1_000_000_000

  lemma {:induction false} DigitsAre(n: nat)
    ensures Digits(n) != "" && forall c :: c in Digits(n) ==> IsDigit(c)
    ensures Value(Digits(n)) == n
  {
    if n >= 10 { DigitsAre(n / 10); }
    assert Digits(n)[..|Digits(n)| - 1] == (if n < 10 then "" else Digits(n / 10));
  }

  lemma {:induction false} DigitsLength(n: nat, k: nat)
    requires k >= 1
    ensures |Digits(n)| <= k <==> n < Pow10(k)
  {
    if n >= 10 {
      if k > 1 {
        DigitsLength(n / 10, k - 1);
      } else {
        DigitsAre(n / 10);
      }
    } else {
      PowGrows(k);
    }
  }

  lemma {:induction false} PowGrows(k: nat)
    requires k >= 1
    ensures Pow10(k) >= 10
  {
    if k > 1 { PowGrows(k - 1); }
  }

  /** Nothing is trimmed off a string of digits, and it is read as what it stands for while it is short enough. */
  lemma DigitsRead(s: string)
    requires s != "" && forall c :: c in s ==> IsDigit(c)
    ensures ParseCount(Some(s)) == if |s| <= 9 then Some(Value(s)) else None
  {
    assert IsDigit(s[0]) && IsDigit(s[|s| - 1]);
    assert Trim(s) == s;
  }

  lemma LimitIsNineDigits()
    ensures Pow10(9) == COUNT_LIMIT
  {
    assert Pow10(1) == 10 && Pow10(2) == 100;
    assert Pow10(3) == 1_000 && Pow10(4) == 10_000;
    assert Pow10(5) == 100_000 && Pow10(6) == 1_000_000;
    assert Pow10(7) == 10_000_000 && Pow10(8) == 100_000_000;
  }

  /** A count survives being written and read exactly while it has nine digits. */
  lemma CountRoundTrip(n: nat)
    ensures ParseCount(Some(Digits(n))) == if n < COUNT_LIMIT then Some(n) else None
  {
    var s := Digits(n);
    DigitsAre(n);
    DigitsLength(n, 9);
    LimitIsNineDigits();
    DigitsRead(s);
  }

  // ------------------------------------------------------- the tracking block

  datatype RetryInfo = RetryInfo(count: nat, originalTopic: string, firstFailureAt: int, lastError: string)

  /** Every field validated; an inconsistent block is discarded as a whole. */
  function ReadRetryInfo(h: HeaderMap, names: Names, ins: Instants): Option<RetryInfo> {
    var count := ParseCount(Get(h, names.RetryCount()));
    var originalTopic := NonBlank(Get(h, names.OriginalTopic()));
    var first := NonBlank(Get(h, names.FirstFailureAt()));
    var firstFailureAt := if first.Some? then ins.parse(first.value) else None;
    if count.None? || count.value < 1 || originalTopic.None? || firstFailureAt.None? then None
    else
      var lastError := Get(h, names.LastError());
      Some(RetryInfo(count.value, originalTopic.value, firstFailureAt.value, if lastError.Some? then lastError.value else ""))
  }

  /** A header whose text, trimmed, is one to nine digits that do not stand for zero. */
  ghost predicate SaysCount(h: HeaderMap, name: string, n: nat) {
    name in h && n >= 1 && var text := Trim(h[name]);
    1 <= |text| <= 9 && (forall c :: c in text ==> IsDigit(c)) && Value(text) == n
  }

  /** Headers from anywhere: a block is read if and only if all three of its fields make sense, and then it says what they say. */
  lemma BlockExactly(h: HeaderMap, names: Names, ins: Instants, info: RetryInfo)
    ensures ReadRetryInfo(h, names, ins) == Some(info) <==>
              && SaysCount(h, names.RetryCount(), info.count)
              && Get(h, names.OriginalTopic()) == Some(info.originalTopic) && !Blank(info.originalTopic)
              && names.FirstFailureAt() in h && !Blank(h[names.FirstFailureAt()])
              && ins.parse(h[names.FirstFailureAt()]) == Some(info.firstFailureAt)
              && info.lastError == (if names.LastError() in h then h[names.LastError()] else "")
  {
  }

  function WriteRetryInfo(h: HeaderMap, names: Names, ins: Instants, previous: Option<RetryInfo>, originalTopic: string, error: string, now: int): HeaderMap {
    h[names.RetryCount() := Digits((if previous.Some? then previous.value.count else 0) + 1)]
     [names.OriginalTopic() := if previous.Some? then previous.value.originalTopic else originalTopic]
     [names.FirstFailureAt() := ins.iso(if previous.Some? then previous.value.firstFailureAt else now)]
     [names.LastError() := error]
  }

  function StampProducer(h: HeaderMap, names: Names, ins: Instants, clientId: string, at: int, minted: string): HeaderMap {
    var kept := NonBlank(Get(h, names.CorrelationId()));
    h[names.CorrelationId() := if kept.Some? then kept.value else minted]
     [names.ProducedAt() := ins.iso(at)]
     [names.Producer() := clientId]
  }

  /** What the instrumentation contributes to a hop: the headers its hook adds and the names it declares its own. */
  datatype Hook = Hook(added: HeaderMap, declared: set<string>)

  /** A hook adds names of its own, and replaces a copied header only under a name it declared, never the tracking. */
  function MergeHook(h: HeaderMap, names: Names, hook: Hook): HeaderMap {
    hook.added + (h - (hook.declared - names.All()))
  }

  /** What a hop learned, and what the environment supplied to it. */
  datatype HopInput = HopInput(error: string, now: int, clientId: string, minted: string, hook: Hook)

  /** Stamped and merged, as every hop leaves. */
  function Outgoing(tracking: HeaderMap, names: Names, ins: Instants, i: HopInput): HeaderMap {
    MergeHook(StampProducer(tracking, names, ins, i.clientId, i.now, i.minted), names, i.hook)
  }

  function HopHeaders(h: HeaderMap, names: Names, ins: Instants, previous: Option<RetryInfo>, originalTopic: string, i: HopInput): HeaderMap {
    Outgoing(WriteRetryInfo(h, names, ins, previous, originalTopic, i.error, i.now), names, ins, i)
  }

  // ---------------------------------------------------------------- the wire

  /** Header values as the broker hands them over: every value a key was written with, in order. */
  type RawHeaders = map<string, seq<string>>

  function Wire(h: HeaderMap): RawHeaders { map n | n in h :: [h[n]] }

  function Decoded(raw: RawHeaders): HeaderMap { map n | n in raw && raw[n] != [] :: raw[n][|raw[n]| - 1] }

  /** Of several entries under one name the latest counts, and an entry without a value not at all. */
  method DecodeHeaders(raw: RawHeaders) returns (headers: HeaderMap)
    ensures headers == Decoded(raw)
  {
    headers := map[];
    var left := raw.Keys;
    while left != {}
      invariant left <= raw.Keys
      invariant headers == map n | n in raw.Keys - left && raw[n] != [] :: raw[n][|raw[n]| - 1]
      decreases left
    {
      var name :| name in left;
      left := left - {name};
      var value := raw[name];
      if value != [] {
        headers := headers[name := value[|value| - 1]];
      }
    }
  }

  lemma WireRoundTrip(h: HeaderMap)
    ensures Decoded(Wire(h)) == h
  {
    var d := Decoded(Wire(h));
    assert forall n :: n in h ==> n in d && d[n] == h[n];
    assert d.Keys == h.Keys;
  }

  /** Suffixes that differ give names that differ, whatever the prefix. */
  lemma PrefixKeepsDistinct(p: string)
    ensures forall a, b {:trigger p + a, p + b} :: p + a == p + b ==> a == b
  {
    forall a, b | p + a == p + b ensures a == b {
      assert (p + a)[|p|..] == a && (p + b)[|p|..] == b;
    }
  }

  lemma NamesDistinct(n: Names)
    ensures n.OriginalTopic() != n.RetryCount() && n.FirstFailureAt() != n.RetryCount() && n.LastError() != n.RetryCount()
    ensures n.FirstFailureAt() != n.OriginalTopic() && n.LastError() != n.OriginalTopic() && n.LastError() != n.FirstFailureAt()
    ensures {n.CorrelationId(), n.ProducedAt(), n.Producer()} !! {n.RetryCount(), n.OriginalTopic(), n.FirstFailureAt(), n.LastError()}
  {
    PrefixKeepsDistinct(n.prefix);
  }

  /** The block a hop writes, field by field, is on the record whatever the hook adds or claims. */
  lemma BlockSurvives(h: HeaderMap, names: Names, ins: Instants, previous: Option<RetryInfo>, originalTopic: string, i: HopInput)
    ensures var h' := HopHeaders(h, names, ins, previous, originalTopic, i);
            && Get(h', names.RetryCount()) == Some(Digits((if previous.Some? then previous.value.count else 0) + 1))
            && Get(h', names.OriginalTopic()) == Some(if previous.Some? then previous.value.originalTopic else originalTopic)
            && Get(h', names.FirstFailureAt()) == Some(ins.iso(if previous.Some? then previous.value.firstFailureAt else i.now))
            && Get(h', names.LastError()) == Some(i.error)
  {
    NamesDistinct(names);
  }

  /**
   * One hop, from the headers that arrived to the block the next consumer
   * reads: it is read back whole exactly when the count still has nine digits
   * and the original topic is not blank.
   */
  lemma HopRoundTrip(h: HeaderMap, names: Names, ins: Instants, previous: Option<RetryInfo>, originalTopic: string, i: HopInput)
    requires ins.Faithful()
    ensures var count := (if previous.Some? then previous.value.count else 0) + 1;
            var topic := if previous.Some? then previous.value.originalTopic else originalTopic;
            var first := if previous.Some? then previous.value.firstFailureAt else i.now;
            ReadRetryInfo(Decoded(Wire(HopHeaders(h, names, ins, previous, originalTopic, i))), names, ins)
            == if count < COUNT_LIMIT && !Blank(topic) then Some(RetryInfo(count, topic, first, i.error)) else None
  {
    WireRoundTrip(HopHeaders(h, names, ins, previous, originalTopic, i));
    BlockSurvives(h, names, ins, previous, originalTopic, i);
    CountRoundTrip((if previous.Some? then previous.value.count else 0) + 1);
  }

  /** The block `process` reads: none on an original topic, whatever its headers say. */
  function BlockAt(h: HeaderMap, names: Names, ins: Instants, level: nat): Option<RetryInfo> {
    if level == 0 then None else ReadRetryInfo(h, names, ins)
  }

  /** What the hop that leaves level `k` makes of the headers there, as the next level reads them; level 0 reads no block. */
  type Hops = (HeaderMap, nat) -> HeaderMap

  function HopsOf(names: Names, ins: Instants, topic: string, hops: seq<HopInput>): Hops {
    (h: HeaderMap, k: nat) => if k < |hops| then Arrived(h, names, ins, BlockAt(h, names, ins, k), topic, hops[k]) else h
  }

  /** The headers after the first `n` hops. */
  function Climb(h: HeaderMap, hops: Hops, n: nat): HeaderMap {
    if n == 0 then h else hops(Climb(h, hops, n - 1), n - 1)
  }

  /** The headers as the next consumer decodes them. */
  function Arrived(h: HeaderMap, names: Names, ins: Instants, previous: Option<RetryInfo>, originalTopic: string, i: HopInput): HeaderMap {
    Decoded(Wire(HopHeaders(h, names, ins, previous, originalTopic, i)))
  }

  /** What a message on a level knows of its ladder; nothing on the original topic. */
  ghost predicate Knows(info: Option<RetryInfo>, n: nat, topic: string, first: int) {
    if n == 0 then info.None?
    else info.Some? && info.value.count == n && info.value.originalTopic == topic && info.value.firstFailureAt == first
  }

  /** What holds on level `m` and passes every hop holds on every level from there. */
  lemma {:induction false} ClimbKeeps(h: HeaderMap, hops: Hops, holds: (HeaderMap, nat) -> bool, m: nat, n: nat)
    requires m <= n && holds(Climb(h, hops, m), m)
    requires forall at: HeaderMap, k: nat :: m <= k < n && holds(at, k) ==> holds(hops(at, k), k + 1)
    ensures holds(Climb(h, hops, n), n)
    decreases n
  {
    if m < n { ClimbKeeps(h, hops, holds, m, n - 1); }
  }

  lemma HopKnows(h: HeaderMap, names: Names, ins: Instants, topic: string, hops: seq<HopInput>, n: nat, first: int)
    requires ins.Faithful() && !Blank(topic) && n < |hops| && n + 1 < COUNT_LIMIT
    requires Knows(BlockAt(h, names, ins, n), n, topic, first) && (n == 0 ==> first == hops[n].now)
    ensures Knows(BlockAt(HopsOf(names, ins, topic, hops)(h, n), names, ins, n + 1), n + 1, topic, first)
  {
    HopRoundTrip(h, names, ins, BlockAt(h, names, ins, n), topic, hops[n]);
  }

  /**
   * On level n a message reads count n, its original topic and its first
   * failure, whatever it carried when it entered and whatever
   * the hooks did on the way.
   */
  lemma LadderTracking(h: HeaderMap, names: Names, ins: Instants, topic: string, hops: seq<HopInput>, n: nat)
    requires ins.Faithful() && !Blank(topic) && 1 <= n <= |hops| && n < COUNT_LIMIT
    ensures Knows(BlockAt(Climb(h, HopsOf(names, ins, topic, hops), n), names, ins, n), n, topic, hops[0].now)
  {
    var climb := HopsOf(names, ins, topic, hops);
    var knows := (at: HeaderMap, k: nat) => Knows(BlockAt(at, names, ins, k), k, topic, hops[0].now);
    forall at: HeaderMap, k: nat | k < n && knows(at, k) ensures knows(climb(at, k), k + 1) {
      HopKnows(at, names, ins, topic, hops, k, hops[0].now);
    }
    ClimbKeeps(h, climb, knows, 0, n);
  }

  /** Every other header the message carried travels on, unless the hook declared it a propagation header. */
  lemma OthersTravel(h: HeaderMap, names: Names, ins: Instants, previous: Option<RetryInfo>, originalTopic: string, i: HopInput, name: string)
    requires name in h && name !in names.All() && name !in i.hook.declared
    ensures Get(HopHeaders(h, names, ins, previous, originalTopic, i), name) == Some(h[name])
  {
  }

  // ------------------------------------------------------ stamps and the hook

  lemma StampNamesDistinct(n: Names)
    ensures n.CorrelationId() != n.ProducedAt() && n.CorrelationId() != n.Producer() && n.ProducedAt() != n.Producer()
  {
    PrefixKeepsDistinct(n.prefix);
  }

  /**
   * Name by name: what was copied stays, unless the hook declared the name its
   * own; then, and where nothing was copied, it is what the hook added, if anything.
   */
  lemma MergeExactly(h: HeaderMap, names: Names, hook: Hook, name: string)
    ensures Get(MergeHook(h, names, hook), name)
         == if name in h && (name !in hook.declared || name in names.All()) then Some(h[name]) else Get(hook.added, name)
  {
  }

  /** An id worth keeping, or the one made for want of it. */
  function NonBlankOr(id: Option<string>, minted: string): Option<string> {
    if id.Some? && !Blank(id.value) then id else Some(minted)
  }

  /** The stamps of a record that leaves, whatever else it carries and whatever the hook does. */
  lemma StampsSurvive(tracking: HeaderMap, names: Names, ins: Instants, i: HopInput)
    ensures var sent := Decoded(Wire(Outgoing(tracking, names, ins, i)));
            var id := Get(tracking, names.CorrelationId());
            && Get(sent, names.CorrelationId()) == NonBlankOr(id, i.minted)
            && Get(sent, names.ProducedAt()) == Some(ins.iso(i.now))
            && Get(sent, names.Producer()) == Some(i.clientId)
  {
    StampNamesDistinct(names);
    WireRoundTrip(Outgoing(tracking, names, ins, i));
  }

  /** What one hop makes of the correlation id that arrived. */
  lemma HopCorrelates(h: HeaderMap, names: Names, ins: Instants, previous: Option<RetryInfo>, topic: string, i: HopInput)
    ensures var id := Get(h, names.CorrelationId());
            Get(Arrived(h, names, ins, previous, topic, i), names.CorrelationId()) == NonBlankOr(id, i.minted)
  {
    NamesDistinct(names);
    StampsSurvive(WriteRetryInfo(h, names, ins, previous, topic, i.error, i.now), names, ins, i);
  }

  lemma HopsKeep(names: Names, ins: Instants, topic: string, hops: seq<HopInput>, h: HeaderMap, k: nat)
    requires k < |hops|
    ensures Get(HopsOf(names, ins, topic, hops)(h, k), names.CorrelationId()) == NonBlankOr(Get(h, names.CorrelationId()), hops[k].minted)
  {
    HopCorrelates(h, names, ins, BlockAt(h, names, ins, k), topic, hops[k]);
  }

  /** An id that is not blank on one level is the id of every later one. */
  lemma IdStays(h: HeaderMap, names: Names, ins: Instants, topic: string, hops: seq<HopInput>, id: string, m: nat, n: nat)
    requires m <= n <= |hops| && !Blank(id)
    requires Get(Climb(h, HopsOf(names, ins, topic, hops), m), names.CorrelationId()) == Some(id)
    ensures Get(Climb(h, HopsOf(names, ins, topic, hops), n), names.CorrelationId()) == Some(id)
  {
    var climb := HopsOf(names, ins, topic, hops);
    var holds := (at: HeaderMap, k: nat) => Get(at, names.CorrelationId()) == Some(id);
    forall at: HeaderMap, k: nat | m <= k < n && holds(at, k) ensures holds(climb(at, k), k + 1) {
      HopsKeep(names, ins, topic, hops, at, k);
    }
    ClimbKeeps(h, climb, holds, m, n);
  }

  /**
   * One correlation id for the life of a message: the one it entered with or,
   * where that is blank, the one its first hop made, is read on every level.
   */
  lemma CorrelationTravels(h: HeaderMap, names: Names, ins: Instants, topic: string, hops: seq<HopInput>, id: string, n: nat)
    requires 1 <= n <= |hops| && !Blank(id)
    requires NonBlankOr(Get(h, names.CorrelationId()), hops[0].minted) == Some(id)
    ensures Get(Climb(h, HopsOf(names, ins, topic, hops), n), names.CorrelationId()) == Some(id)
  {
    HopsKeep(names, ins, topic, hops, h, 0);
    IdStays(h, names, ins, topic, hops, id, 1, n);
  }
}
