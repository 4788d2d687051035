/**
 * Down the whole ladder: every message the group consumes stays accounted
 * for, after finitely many hops, and every copy finds the handler of the
 * message it was made from.
 */
module Ladder {
  import opened Basics
  import opened Lanes
  import opened LaneSafety
  import opened Routes
  import opened Headers
  import opened World
  import opened Order
  import opened WorldSafety
  import opened Prefix
  import opened Riders

  function LevelOf(c: Config, topic: string): nat { if topic in c.routes then c.routes[topic].level else |c.delays| + 1 }

  /** `(to, toOff)` is an acknowledged copy of `(at, off)` with its bytes. */
  ghost predicate CopyOf(w: World, at: TP, off: nat, to: TP, toOff: nat) {
    && Copied(at, off, to, toOff) in w.fates
    && off < |w.Log(at)| && toOff < |w.Log(to)|
    && w.Log(to)[toOff].key == w.Log(at)[off].key && w.Log(to)[toOff].value == w.Log(at)[off].value
  }

  /**
   * The message is not committed yet, or its handler's transaction committed
   * it and the handler is not done, or it was processed, or it has a copy in
   * a DLQ, or a copy one level further down that is itself in one of these
   * ways.
   */
  ghost predicate Conserved(c: Config, w: World, tp: TP, off: nat)
    requires tp.topic in c.routes
    decreases if LevelOf(c, tp.topic) <= |c.delays| then |c.delays| + 1 - LevelOf(c, tp.topic) else 0
  {
    || !(tp in w.committed && off < w.committed[tp])
    || Riding(w, tp, off)
    || Processed(tp, off) in w.fates
    || (exists to, toOff :: CopyOf(w, tp, off, to, toOff) && to.topic !in c.routes)
    || (exists to, toOff :: CopyOf(w, tp, off, to, toOff) &&
          to.topic in c.routes && LevelOf(c, to.topic) == LevelOf(c, tp.topic) + 1 <= |c.delays| && Conserved(c, w, to, toOff))
  }

  lemma {:induction false} AllConserved(c: Config, w: World, tp: TP, off: nat)
    requires ConfigOk(c) && FatesOk(c, w) && tp.topic in c.routes
    requires PrefixSettled(w)
    requires w.Init(tp) <= off < |w.Log(tp)|
    ensures Conserved(c, w, tp, off)
    decreases if LevelOf(c, tp.topic) <= |c.delays| then |c.delays| + 1 - LevelOf(c, tp.topic) else 0
  {
    assert RouteOk(c.routes, c.delays, tp.topic);
    if tp in w.committed && off < w.committed[tp] {
      if Riding(w, tp, off) { return; }
      var f :| f in w.fates && f.at == tp && f.off == off;
      assert FateOk(c, w, f);
      if f.Copied? {
        if f.to.topic in c.routes { AllConserved(c, w, f.to, f.toOff); }
        CopyConserves(c, w, f);
      }
    }
  }

  /** A copy in a DLQ, or one that is itself conserved. */
  lemma CopyConserves(c: Config, w: World, f: Fate)
    requires FateOk(c, w, f) && f.Copied? && f in w.fates
    requires f.to.topic in c.routes ==> LevelOf(c, f.at.topic) <= |c.delays| && Conserved(c, w, f.to, f.toOff)
    ensures Conserved(c, w, f.at, f.off)
  {
    assert CopyOf(w, f.at, f.off, f.to, f.toOff);
  }

  /** Conservation: after any run in order, with its transactions seen through, no message from the group's start on is lost. */
  lemma Conservation(g: Guard, c: Config, w: World, run: seq<Act>, tp: TP, off: nat)
    requires ConfigOk(c) && Initial(w) && Runs(c, w, run) && GuardedRun(g, c, w, run) && SeenThroughRun(c, w, run) && tp.topic in c.routes
    requires var w' := Final(c, w, run); w'.Init(tp) <= off < |w'.Log(tp)|
    ensures Conserved(c, Final(c, w, run), tp, off)
  {
    SettledPrefix(g, c, w, run);
    AllConserved(c, Final(c, w, run), tp, off);
  }

  // ------------------------------------------------------------- the hops

  datatype Place = Place(tp: TP, off: nat)

  /** A message followed from copy to copy. */
  ghost predicate Trail(w: World, path: seq<Place>) {
    forall i :: 0 < i < |path| ==> Copied(path[i - 1].tp, path[i - 1].off, path[i].tp, path[i].off) in w.fates
  }

  /** A copy of a message on the ladder lies one level further down. */
  lemma CopyDescends(c: Config, w: World, at: Place, to: Place)
    requires ConfigOk(c) && FatesOk(c, w) && Copied(at.tp, at.off, to.tp, to.off) in w.fates
    ensures at.tp.topic in c.routes && LevelOf(c, at.tp.topic) <= |c.delays|
    ensures to.tp.topic in c.routes ==> LevelOf(c, to.tp.topic) == LevelOf(c, at.tp.topic) + 1
  {
    assert FateOk(c, w, Copied(at.tp, at.off, to.tp, to.off));
    assert RouteOk(c.routes, c.delays, at.tp.topic);
  }

  lemma {:induction false} TrailDescends(c: Config, w: World, path: seq<Place>, i: nat)
    requires ConfigOk(c) && FatesOk(c, w) && Trail(w, path) && i < |path| && path[0].tp.topic in c.routes
    ensures (i + 1 < |path| ==> path[i].tp.topic in c.routes)
    ensures path[i].tp.topic in c.routes ==> LevelOf(c, path[i].tp.topic) == LevelOf(c, path[0].tp.topic) + i
    ensures i + LevelOf(c, path[0].tp.topic) <= |c.delays| + 1
  {
    if i > 0 {
      TrailDescends(c, w, path, i - 1);
      CopyDescends(c, w, path[i - 1], path[i]);
    } else {
      assert RouteOk(c.routes, c.delays, path[0].tp.topic);
    }
    if i + 1 < |path| { CopyDescends(c, w, path[i], path[i + 1]); }
  }

  /** A message from an original topic makes at most one hop per level and one to the DLQ, whatever its handler and the retry predicate do. */
  lemma HopsBounded(g: Guard, c: Config, w: World, run: seq<Act>, path: seq<Place>)
    requires ConfigOk(c) && Initial(w) && Runs(c, w, run) && GuardedRun(g, c, w, run)
    requires path != [] && path[0].tp.topic in c.routes && Trail(Final(c, w, run), path)
    ensures |path| - 1 <= |c.delays| + 1
  {
    InitialOk(g, c, w);
    RunKeeps(g, c, w, run);
    TrailDescends(c, Final(c, w, run), path, |path| - 1);
  }

  // ------------------------------------------------------- back to its own

  /** The message belongs to `s`, and its block says so as far as it was written. */
  ghost predicate Belongs(c: Config, topic: string, rec: Rec, s: Subscription)
    requires topic in c.routes
  {
    var level, block := c.routes[topic].level, Block(c, topic, rec);
    && Owner(c, topic, rec) == Some(s)
    && (if level == 0 then block.None? else block.Some? && block.value.count == level && block.value.originalTopic == s.plan.original)
  }

  /** A retry hop hands the copy to the same subscription, also on a topic it shares. */
  lemma HopFindsOwner(c: Config, topic: string, rec: Rec, copy: Rec, to: string, hop: HopChoice, s: Subscription)
    requires ConfigOk(c) && c.ins.Faithful() && |c.delays| + 1 < COUNT_LIMIT
    requires topic in c.routes && Belongs(c, topic, rec, s) && !Blank(s.plan.original)
    requires CopyBy(c, rec, topic, copy, to, hop) && to in c.routes
    ensures Belongs(c, to, copy, s)
  {
    HopLands(c, topic, rec, to, hop, s);
    HopTells(c, topic, rec, copy, hop, s);
    NamedOwner(c, to, s);
  }

  /** A hop that stays on the ladder is a retry, to the next level of the same subscription. */
  lemma HopLands(c: Config, topic: string, rec: Rec, to: string, hop: HopChoice, s: Subscription)
    requires ConfigOk(c) && topic in c.routes && Owner(c, topic, rec) == Some(s)
    requires Destination(c, topic, rec, hop.WantsRetry()) == Some(to) && to in c.routes
    ensures hop.WantsRetry() && s.plan.RetryTopic(c.routes[topic].level + 1) == Some(to)
    ensures c.routes[to].level == c.routes[topic].level + 1 <= |c.delays|
    ensures s.plan.original in c.routes[to].owners && c.routes[to].owners[s.plan.original] == s
  {
    assert RouteOk(c.routes, c.delays, topic) && RouteOk(c.routes, c.delays, to);
    OwnerOwns(c, topic, rec);
    NextRoute(c.routes, c.delays, topic, s.plan.original);
  }

  /** And its headers say which level that is, and whose. */
  lemma HopTells(c: Config, topic: string, rec: Rec, copy: Rec, hop: HopChoice, s: Subscription)
    requires c.ins.Faithful() && |c.delays| + 1 < COUNT_LIMIT
    requires topic in c.routes && Belongs(c, topic, rec, s) && !Blank(s.plan.original) && c.routes[topic].level + 1 <= |c.delays|
    requires hop.WantsRetry() && s.plan.RetryTopic(c.routes[topic].level + 1).Some?
    requires copy == HopRecord(c, topic, rec, hop)
    ensures var block := ReadRetryInfo(copy.headers, c.names, c.ins);
            block.Some? && block.value.count == c.routes[topic].level + 1 && block.value.originalTopic == s.plan.original
  {
    var block := Block(c, topic, rec);
    assert copy.headers == HopHeaders(rec.headers, c.names, c.ins, block, s.plan.original, hop.input);
    HopRoundTrip(rec.headers, c.names, c.ins, block, s.plan.original, hop.input);
    WireRoundTrip(copy.headers);
  }

  /** A subscription that owns a route is found there under its own name. */
  lemma NamedOwner(c: Config, topic: string, s: Subscription)
    requires topic in c.routes && s.plan.original in c.routes[topic].owners && c.routes[topic].owners[s.plan.original] == s
    ensures OwnerOf(c.routes[topic], Some(s.plan.original)) == Some(s)
  {
    OnlyOne(c.routes[topic].owners.Keys);
  }

  lemma CopyFindsOwner(c: Config, w: World, f: Fate, s: Subscription)
    requires ConfigOk(c) && c.ins.Faithful() && |c.delays| + 1 < COUNT_LIMIT
    requires FateOk(c, w, f) && f.Copied? && f.to.topic in c.routes && !Blank(s.plan.original)
    requires Belongs(c, f.at.topic, w.Log(f.at)[f.off], s)
    ensures Belongs(c, f.to.topic, w.Log(f.to)[f.toOff], s)
  {
    var hop :| CopyBy(c, w.Log(f.at)[f.off], f.at.topic, w.Log(f.to)[f.toOff], f.to.topic, hop);
    HopFindsOwner(c, f.at.topic, w.Log(f.at)[f.off], w.Log(f.to)[f.toOff], f.to.topic, hop, s);
  }

  /** A message on an original topic belongs to that topic's subscription, whatever its headers say. */
  lemma StartsAtHome(c: Config, topic: string, rec: Rec, s: Subscription)
    requires topic in c.routes && c.routes[topic].level == 0 && c.routes[topic].owners == map[topic := s]
    ensures Belongs(c, topic, rec, s)
  {
    OnlyOne(c.routes[topic].owners.Keys);
  }

  ghost predicate AtHome(c: Config, w: World, p: Place, s: Subscription) {
    p.tp.topic in c.routes && p.off < |w.Log(p.tp)| && Belongs(c, p.tp.topic, w.Log(p.tp)[p.off], s)
  }

  /** A message that entered on an original topic is handled, on every level it reaches, by that topic's own subscription. */
  lemma {:induction false} OwnHandlerAllTheWay(c: Config, w: World, path: seq<Place>, i: nat, s: Subscription)
    requires ConfigOk(c) && c.ins.Faithful() && |c.delays| + 1 < COUNT_LIMIT && FatesOk(c, w)
    requires Trail(w, path) && i < |path| && path[0].off < |w.Log(path[0].tp)|
    requires path[0].tp.topic in c.routes && c.routes[path[0].tp.topic].level == 0 && path[i].tp.topic in c.routes
    requires c.routes[path[0].tp.topic].owners == map[path[0].tp.topic := s] && !Blank(s.plan.original)
    ensures AtHome(c, w, path[i], s)
  {
    if i > 0 {
      var f := Copied(path[i - 1].tp, path[i - 1].off, path[i].tp, path[i].off);
      assert f in w.fates && FateOk(c, w, f);
      OwnHandlerAllTheWay(c, w, path, i - 1, s);
      CopyFindsOwner(c, w, f, s);
    } else {
      StartsAtHome(c, path[0].tp.topic, w.Log(path[0].tp)[path[0].off], s);
    }
  }
}
