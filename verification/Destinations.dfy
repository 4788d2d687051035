/** Where a failed message goes, exactly, and what its copy says about it. */
module Destinations {
  import opened Basics
  import opened Lanes
  import opened Order
  import opened Routes
  import opened Headers
  import opened World
  import opened WorldSafety
  import opened Prefix

  // ------------------------------------------------------------ who owns it

  /** A route with one owner is that one's, whatever the message says; on a shared one the message has to name its owner. */
  lemma OwnerExactly(route: Route, named: Option<string>, s: Subscription)
    ensures OwnerOf(route, named) == Some(s) <==>
            || (exists o :: route.owners == map[o := s])
            || (|route.owners| != 1 && named.Some? && named.value in route.owners && route.owners[named.value] == s)
  {
    OneEntry(route.owners);
  }

  lemma OneEntry(m: map<string, Subscription>)
    ensures |m| == 1 ==> exists o :: o in m && m == map[o := m[o]]
    ensures forall o, s :: m == map[o := s] ==> |m| == 1
  {
    if |m| == 1 {
      OnlyOne(m.Keys);
      var o :| m.Keys == {o};
      assert m == map[o := m[o]];
    }
  }

  // ---------------------------------------------------------- where it goes

  /** The next retry level of the subscription: routed, one level down, and owned by it. */
  ghost predicate IsNextLevel(c: Config, topic: string, s: Subscription, to: string)
    requires topic in c.routes
  {
    var level := c.routes[topic].level;
    && level < |s.plan.retryTopics| && to == s.plan.retryTopics[level]
    && to in c.routes && c.routes[to].level == level + 1
    && s.plan.original in c.routes[to].owners && c.routes[to].owners[s.plan.original] == s
  }

  /**
   * A message of a subscription goes to that subscription's next retry level
   * if and only if the failure is to be retried and there is a level left;
   * otherwise to its DLQ, and nowhere if it has none.
   */
  lemma DestinationExactly(c: Config, topic: string, rec: Rec, wantsRetry: bool, s: Subscription)
    requires ConfigOk(c) && topic in c.routes && Owner(c, topic, rec) == Some(s)
    ensures (exists to :: IsNextLevel(c, topic, s, to) && Destination(c, topic, rec, wantsRetry) == Some(to)) <==>
            wantsRetry && c.routes[topic].level < |c.delays|
    ensures !(wantsRetry && c.routes[topic].level < |c.delays|) ==> Destination(c, topic, rec, wantsRetry) == s.plan.dlq
    ensures forall to :: IsNextLevel(c, topic, s, to) ==> s.plan.dlq != Some(to)
  {
    OwnerOwns(c, topic, rec);
    assert RouteOk(c.routes, c.delays, topic) && OwnerOk(c.routes, c.delays, topic, s.plan.original);
    NextRoute(c.routes, c.delays, topic, s.plan.original);
    if wantsRetry && c.routes[topic].level < |c.delays| {
      assert IsNextLevel(c, topic, s, s.plan.retryTopics[c.routes[topic].level]);
    }
  }

  /** A message of nobody goes to the DLQ all owners of its topic have in common, if they have one. */
  lemma NobodysDestination(c: Config, topic: string, rec: Rec, wantsRetry: bool, d: string)
    requires ConfigOk(c) && topic in c.routes && Owner(c, topic, rec).None?
    ensures Destination(c, topic, rec, wantsRetry) == Some(d) <==> forall o :: o in c.routes[topic].owners ==> c.routes[topic].owners[o].plan.dlq == Some(d)
  {
    assert RouteOk(c.routes, c.delays, topic);
    var o :| o in c.routes[topic].owners;
  }

  /** A failure to decode never takes a retry level. */
  lemma UndecodableNeverRetried(c: Config, topic: string, rec: Rec, hop: HopChoice, s: Subscription)
    requires ConfigOk(c) && topic in c.routes && Owner(c, topic, rec) == Some(s) && hop.undecodable
    ensures Destination(c, topic, rec, hop.WantsRetry()) == s.plan.dlq
  {
    DestinationExactly(c, topic, rec, hop.WantsRetry(), s);
  }

  // --------------------------------------------------------- over whole runs

  /** The hop that made this copy, seen from the copy. */
  ghost predicate MadeBy(c: Config, w: World, f: Fate, hop: HopChoice)
    requires f.Copied? && f.at.topic in c.routes && f.off < |w.Log(f.at)| && f.toOff < |w.Log(f.to)|
  {
    CopyBy(c, w.Log(f.at)[f.off], f.at.topic, w.Log(f.to)[f.toOff], f.to.topic, hop)
  }

  /** A copy on a consumed topic is on its own subscription's next level, by a hop that wanted a retry. */
  ghost predicate Retried(c: Config, w: World, f: Fate, hop: HopChoice)
    requires f.Copied? && f.at.topic in c.routes && f.off < |w.Log(f.at)|
  {
    var owner := Owner(c, f.at.topic, w.Log(f.at)[f.off]);
    owner.Some? && hop.WantsRetry() && IsNextLevel(c, f.at.topic, owner.value, f.to.topic)
  }

  /** One elsewhere is in its subscription's DLQ, by a hop that wanted none or had no level left, or it is of nobody. */
  ghost predicate DeadLettered(c: Config, w: World, f: Fate, hop: HopChoice)
    requires f.Copied? && f.at.topic in c.routes && f.off < |w.Log(f.at)|
  {
    match Owner(c, f.at.topic, w.Log(f.at)[f.off])
    case Some(s) => s.plan.dlq == Some(f.to.topic) && (!hop.WantsRetry() || c.routes[f.at.topic].level == |c.delays|)
    case None => forall o :: o in c.routes[f.at.topic].owners ==> c.routes[f.at.topic].owners[o].plan.dlq == Some(f.to.topic)
  }

  lemma CopyExactly(c: Config, w: World, f: Fate, hop: HopChoice)
    requires ConfigOk(c) && FateOk(c, w, f) && f.Copied? && MadeBy(c, w, f, hop)
    ensures if f.to.topic in c.routes then Retried(c, w, f, hop) else DeadLettered(c, w, f, hop)
  {
    var rec, topic := w.Log(f.at)[f.off], f.at.topic;
    assert RouteOk(c.routes, c.delays, topic);
    match Owner(c, topic, rec)
    case Some(s) =>
      DestinationExactly(c, topic, rec, hop.WantsRetry(), s);
      OwnerOwns(c, topic, rec);
      assert OwnerOk(c.routes, c.delays, topic, s.plan.original);
    case None =>
      NobodysDestination(c, topic, rec, hop.WantsRetry(), f.to.topic);
      var o :| o in c.routes[topic].owners;
      NextRoute(c.routes, c.delays, topic, o);
  }

  /**
   * Over any run in order: a copy lies on the next retry level of its own
   * subscription, made by a hop that wanted a retry; or in a DLQ, made by one
   * that wanted none, from the last level, or for a message of nobody.
   */
  lemma CopiesExactly(g: Guard, c: Config, w: World, run: seq<Act>, f: Fate)
    requires ConfigOk(c) && Initial(w) && Runs(c, w, run) && GuardedRun(g, c, w, run) && f in Final(c, w, run).fates && f.Copied?
    ensures var w' := Final(c, w, run);
            && FateOk(c, w', f)
            && exists hop :: MadeBy(c, w', f, hop) && (if f.to.topic in c.routes then Retried(c, w', f, hop) else DeadLettered(c, w', f, hop))
  {
    InitialOk(g, c, w);
    RunKeeps(g, c, w, run);
    var w' := Final(c, w, run);
    assert FateOk(c, w', f);
    var hop :| CopyBy(c, w'.Log(f.at)[f.off], f.at.topic, w'.Log(f.to)[f.toOff], f.to.topic, hop);
    assert MadeBy(c, w', f, hop);
    CopyExactly(c, w', f, hop);
  }

  // ------------------------------------------------------ what the copy says

  /** A dead letter says when it became one, and what the last failure was, whatever the hook adds. */
  lemma DeadLetterTells(c: Config, topic: string, rec: Rec, hop: HopChoice)
    requires topic in c.routes
    requires Owner(c, topic, rec).Some? ==> !(hop.WantsRetry() && Owner(c, topic, rec).value.plan.RetryTopic(c.routes[topic].level + 1).Some?)
    ensures var copy := HopRecord(c, topic, rec, hop);
            && Get(copy.headers, c.names.DeadLetteredAt()) == Some(c.ins.iso(hop.input.now))
            && Get(copy.headers, c.names.LastError()) == Some(hop.input.error)
            && (Owner(c, topic, rec).Some? ==>
                  Get(copy.headers, c.names.RetryCount()) == Some(Digits((if Block(c, topic, rec).Some? then Block(c, topic, rec).value.count else 0) + 1)))
  {
    MarkApart(c.names);
    NamesDistinct(c.names);
  }

  lemma MarkApart(n: Names)
    ensures n.DeadLetteredAt() !in {n.CorrelationId(), n.ProducedAt(), n.Producer(), n.RetryCount(), n.LastError()}
  {
    PrefixKeepsDistinct(n.prefix);
  }
}
