/** What every run of the swarm guarantees, crashes and redeliveries included. */
module SwarmTheorems {
  import opened Types
  import opened Changelog
  import opened Runner
  import opened RunnerTheorems
  import opened Swarm

  // ---------- One node at rest ----------

  /** Up, idle, and every input message marked. */
  ghost predicate AtRest(s: Node) {
    AllIdle(s) && forall p :: 0 <= p < |s.lanes| ==> s.lanes[p].marked == |s.lanes[p].log|
  }

  /** Some attempt on c was accepted by every output topic. */
  ghost predicate Finished(cfg: Config, s: Node, c: Cid) {
    exists a :: 0 <= a < |s.attempts| && s.attempts[a].cid == c && Complete(cfg, s.attempts[a])
  }

  ghost predicate HeardFrom(cfg: Config, s: Node, c: Cid, u: Name) {
    cfg.part(c) < |s.lanes| && exists d :: Msg(c, u, d) in s.lanes[cfg.part(c)].log
  }

  lemma RestingFanInFinished(cfg: Config, s: Node, c: Cid)
    requires cfg.FanIn() && Runner.Inv(cfg, s) && AtRest(s)
    requires Distinct(cfg.deps) && forall u :: u in cfg.deps ==> HeardFrom(cfg, s, c, u)
    ensures Finished(cfg, s, c)
  {
    var kept := Replay(s.changelog);
    if !Finished(cfg, s, c) {
      forall u | u in cfg.deps ensures c in kept && u in kept[c] {
        RestingContribution(cfg, s, c, u);
      }
      assert cfg.deps[0] in cfg.deps;
      EveryDependencyCounts(cfg.deps, kept[c]);
      assert false by {
        if c in s.joins {
          IdleMemory(cfg, s, c);
        } else {
          IdleStore(cfg, s, c);
        }
      }
    }
  }

  lemma RestingContribution(cfg: Config, s: Node, c: Cid, u: Name)
    requires cfg.FanIn() && NothingLost(cfg, s) && AtRest(s) && HeardFrom(cfg, s, c, u)
    ensures (c in Replay(s.changelog) && u in Replay(s.changelog)[c]) || Finished(cfg, s, c)
  {
    var p := cfg.part(c);
    var d :| Msg(c, u, d) in s.lanes[p].log;
    var i :| 0 <= i < |s.lanes[p].log| && s.lanes[p].log[i] == Msg(c, u, d);
    assert Secured(cfg, Replay(s.changelog), s.attempts, s.lanes[p], i);
  }

  lemma EveryDependencyCounts(deps: seq<Name>, received: Received)
    requires Distinct(deps) && forall u :: u in deps ==> u in received
    ensures |received| >= |deps|
  {
    DistinctCardinality(deps);
    SubsetCardinality(Elements(deps), received.Keys);
    assert |received.Keys| == |received|;
  }

  lemma RestingDirectFinished(cfg: Config, s: Node, p: nat, m: Msg)
    requires !cfg.FanIn() && Runner.Inv(cfg, s) && AtRest(s) && p < |s.lanes| && m in s.lanes[p].log
    ensures Finished(cfg, s, m.cid)
  {
    var i :| 0 <= i < |s.lanes[p].log| && s.lanes[p].log[i] == m;
    assert Forwarded(cfg, s.attempts, p, i);
    var a :| 0 <= a < |s.attempts| && s.attempts[a].lane == p && s.attempts[a].offset == i
      && Complete(cfg, s.attempts[a]);
    assert AttemptOk(cfg, s.lanes, s.attempts[a]);
  }

  // ---------- Which nodes complete c ----------

  ghost predicate Completed(plan: Plan, s: World, v: Name, c: Cid) {
    v in s.nodes && Finished(Cfg(plan, v), s.nodes[v], c)
  }

  ghost function CompletedSet(plan: Plan, s: World, c: Cid): set<Name> {
    set v | v in s.nodes && Finished(Cfg(plan, v), s.nodes[v], c)
  }

  /** An outside message for c reached v; below a gate, in the gate's name. */
  ghost predicate EnteredAt(injected: seq<Injection>, v: Name, c: Cid) {
    exists m: Msg :: m.cid == c && Injection(v, m) in injected
  }

  ghost predicate ReleasedBy(injected: seq<Injection>, g: Name, v: Name, c: Cid) {
    exists m: Msg :: m.cid == c && m.source == g && Injection(v, m) in injected
  }

  /** v is a worker, and everything it waits for on c has happened; `did` are the workers that did their part. */
  ghost predicate Fed(plan: Plan, injected: seq<Injection>, did: set<Name>, c: Cid, v: Name) {
    && IsWorker(plan, v)
    && if Deps(plan, v) == [] then EnteredAt(injected, v, c)
       else forall u :: u in Deps(plan, v) ==>
              (IsGate(plan, u) && ReleasedBy(injected, u, v, c)) || (IsWorker(plan, u) && u in did)
  }

  ghost predicate Closed(plan: Plan, injected: seq<Injection>, did: set<Name>, c: Cid) {
    forall v :: Fed(plan, injected, did, c, v) ==> v in did
  }

  ghost predicate Quiescent(plan: Plan, s: World) {
    forall v :: v in s.nodes && IsWorker(plan, v) ==> AtRest(s.nodes[v])
  }

  lemma DependencyHeard(plan: Plan, s: World, v: Name, u: Name, c: Cid)
    requires Sound(plan) && Swarm.Inv(plan, s) && v in s.nodes && u in Deps(plan, v)
    requires (IsGate(plan, u) && ReleasedBy(s.injected, u, v, c)) || (IsWorker(plan, u) && Completed(plan, s, u, c))
    ensures HeardFrom(Cfg(plan, v), s.nodes[v], c, u)
  {
    if IsGate(plan, u) && ReleasedBy(s.injected, u, v, c) {
      var m: Msg :| m.cid == c && m.source == u && Injection(v, m) in s.injected;
      InjectionArrived(plan, s, v, m);
    } else {
      var a :| 0 <= a < |s.nodes[u].attempts| && s.nodes[u].attempts[a].cid == c
        && Complete(Cfg(plan, u), s.nodes[u].attempts[a]);
      var t := s.nodes[u].attempts[a];
      DepsAreOutputs(plan, u, v);
      var k :| 0 <= k < |Outs(plan, u)| && Outs(plan, u)[k] == v;
      assert Delivered(plan, s.nodes, u, t);
      assert Reached(plan, s.nodes, Outs(plan, u)[k], u, t);
      assert Msg(c, u, t.out) in s.nodes[v].lanes[plan.part(c)].log;
    }
  }

  lemma InjectionArrived(plan: Plan, s: World, v: Name, m: Msg)
    requires InjectedKept(plan, s) && LogsTraced(plan, s) && Injection(v, m) in s.injected
    ensures v in s.nodes && InSomeLane(s.nodes[v].lanes, m)
    ensures Deps(plan, v) != [] ==> plan.part(m.cid) < |s.nodes[v].lanes| && m in s.nodes[v].lanes[plan.part(m.cid)].log
  {
    var j :| 0 <= j < |s.injected| && s.injected[j] == Injection(v, m);
    assert InSomeLane(s.nodes[s.injected[j].target].lanes, s.injected[j].m);
    var p :| 0 <= p < |s.nodes[v].lanes| && m in s.nodes[v].lanes[p].log;
    var i :| 0 <= i < |s.nodes[v].lanes[p].log| && s.nodes[v].lanes[p].log[i] == m;
    assert Traced(plan, s, v, p, s.nodes[v].lanes[p].log[i]);
  }

  lemma HeardMeansCompleted(plan: Plan, s: World, v: Name, c: Cid)
    requires Sound(plan) && NodesOk(plan, s) && Quiescent(plan, s) && IsWorker(plan, v)
    requires Deps(plan, v) != [] && forall u :: u in Deps(plan, v) ==> HeardFrom(Cfg(plan, v), s.nodes[v], c, u)
    ensures Completed(plan, s, v, c)
  {
    var cfg, n := Cfg(plan, v), s.nodes[v];
    assert Runner.Inv(cfg, n) && AtRest(n);
    if cfg.FanIn() {
      var i :| 0 <= i < |plan.nodes| && plan.nodes[i] == Find(plan.nodes, v);
      RestingFanInFinished(cfg, n, c);
    } else {
      var u := Deps(plan, v)[0];
      assert u in Deps(plan, v);
      var d :| Msg(c, u, d) in n.lanes[cfg.part(c)].log;
      RestingDirectFinished(cfg, n, cfg.part(c), Msg(c, u, d));
    }
  }

  lemma FedMeansCompleted(plan: Plan, s: World, v: Name, c: Cid)
    requires Sound(plan) && Swarm.Inv(plan, s) && Quiescent(plan, s)
    requires Fed(plan, s.injected, CompletedSet(plan, s, c), c, v)
    ensures Completed(plan, s, v, c)
  {
    if Deps(plan, v) == [] {
      var m: Msg :| m.cid == c && Injection(v, m) in s.injected;
      InjectionArrived(plan, s, v, m);
      var p :| 0 <= p < |s.nodes[v].lanes| && m in s.nodes[v].lanes[p].log;
      assert Runner.Inv(Cfg(plan, v), s.nodes[v]);
      RestingDirectFinished(Cfg(plan, v), s.nodes[v], p, m);
    } else {
      forall u | u in Deps(plan, v) ensures HeardFrom(Cfg(plan, v), s.nodes[v], c, u) {
        DependencyHeard(plan, s, v, u, c);
      }
      HeardMeansCompleted(plan, s, v, c);
    }
  }

  /**
   At least once. However the run went, once every runner is up and idle with its input marked, each
   worker that heard from all its dependencies about c has published a complete result for c.
   */
  lemma AtLeastOnce(plan: Plan, states: seq<World>, events: seq<Event>, v: Name, c: Cid)
    requires Sound(plan) && WorldRun(plan, states, events) && Quiescent(plan, states[|events|]) && IsWorker(plan, v)
    requires v in states[|events|].nodes && Deps(plan, v) != []
    requires forall u :: u in Deps(plan, v) ==> HeardFrom(Cfg(plan, v), states[|events|].nodes[v], c, u)
    ensures Completed(plan, states[|events|], v, c)
  {
    WorldRunKeeps(plan, states, events, |events|);
    HeardMeansCompleted(plan, states[|events|], v, c);
  }

  // ---------- Nothing else completes ----------

  /** Every attempt on c belongs to a node in did. */
  ghost predicate Within(s: World, did: set<Name>, c: Cid) {
    forall v, a :: v in s.nodes && 0 <= a < |s.nodes[v].attempts| && s.nodes[v].attempts[a].cid == c ==> v in did
  }

  ghost predicate PublishersWithin(s: World, did: set<Name>, c: Cid) {
    forall v, a ::
      v in s.nodes && 0 <= a < |s.nodes[v].attempts| && s.nodes[v].attempts[a].cid == c
        && s.nodes[v].attempts[a].landed != []
      ==> v in did
  }

  ghost predicate SupportedBy(plan: Plan, s: World, did: set<Name>, v: Name, m: Msg) {
    if Deps(plan, v) == [] then Injection(v, m) in s.injected
    else (IsGate(plan, m.source) && Injection(v, m) in s.injected) || (IsWorker(plan, m.source) && m.source in did)
  }

  /** The message behind a log entry of v was produced inside did or injected. */
  lemma MessageSupported(plan: Plan, s: World, did: set<Name>, v: Name, p: nat, m: Msg)
    requires LogsTraced(plan, s) && v in s.nodes && p < |s.nodes[v].lanes| && m in s.nodes[v].lanes[p].log
    requires PublishersWithin(s, did, m.cid)
    ensures SupportedBy(plan, s, did, v, m) && (Deps(plan, v) != [] ==> m.source in Deps(plan, v))
  {
    var i :| 0 <= i < |s.nodes[v].lanes[p].log| && s.nodes[v].lanes[p].log[i] == m;
    assert Traced(plan, s, v, p, s.nodes[v].lanes[p].log[i]);
    if Deps(plan, v) != [] && !IsGate(plan, m.source) {
      var u := m.source;
      var a :| 0 <= a < |s.nodes[u].attempts| && Carries(plan, u, s.nodes[u].attempts[a], v, m);
    }
  }

  lemma AttemptIsFed(plan: Plan, s: World, did: set<Name>, v: Name, a: nat)
    requires Sound(plan) && Swarm.Inv(plan, s) && v in s.nodes && IsWorker(plan, v) && a < |s.nodes[v].attempts|
    requires PublishersWithin(s, did, s.nodes[v].attempts[a].cid)
    ensures Fed(plan, s.injected, did, s.nodes[v].attempts[a].cid, v)
  {
    assert Runner.Inv(Cfg(plan, v), s.nodes[v]);
    assert AttemptOk(Cfg(plan, v), s.nodes[v].lanes, s.nodes[v].attempts[a]);
    if Cfg(plan, v).FanIn() {
      FanInAttemptIsFed(plan, s, did, v, a);
    } else {
      DirectAttemptIsFed(plan, s, did, v, a);
    }
  }

  lemma FanInAttemptIsFed(plan: Plan, s: World, did: set<Name>, v: Name, a: nat)
    requires Sound(plan) && LogsTraced(plan, s) && v in s.nodes && IsWorker(plan, v) && a < |s.nodes[v].attempts|
    requires Cfg(plan, v).FanIn() && AttemptOk(Cfg(plan, v), s.nodes[v].lanes, s.nodes[v].attempts[a])
    requires PublishersWithin(s, did, s.nodes[v].attempts[a].cid)
    ensures Fed(plan, s.injected, did, s.nodes[v].attempts[a].cid, v)
  {
    var cfg, n, t := Cfg(plan, v), s.nodes[v], s.nodes[v].attempts[a];
    var i :| 0 <= i < |plan.nodes| && plan.nodes[i] == Find(plan.nodes, v);
    CountIsWhole(cfg, n.lanes, t.cid, t.received);
    forall u | u in Deps(plan, v)
      ensures (IsGate(plan, u) && ReleasedBy(s.injected, u, v, t.cid)) || (IsWorker(plan, u) && u in did)
    {
      assert u in Elements(cfg.deps);
      MessageSupported(plan, s, did, v, cfg.part(t.cid), Msg(t.cid, u, t.received[u]));
    }
  }

  lemma DirectAttemptIsFed(plan: Plan, s: World, did: set<Name>, v: Name, a: nat)
    requires LogsTraced(plan, s) && v in s.nodes && IsWorker(plan, v) && a < |s.nodes[v].attempts|
    requires !Cfg(plan, v).FanIn() && AttemptOk(Cfg(plan, v), s.nodes[v].lanes, s.nodes[v].attempts[a])
    requires PublishersWithin(s, did, s.nodes[v].attempts[a].cid)
    ensures Fed(plan, s.injected, did, s.nodes[v].attempts[a].cid, v)
  {
    var n, t := s.nodes[v], s.nodes[v].attempts[a];
    var m := n.lanes[t.lane].log[t.offset];
    MessageSupported(plan, s, did, v, t.lane, m);
    if Deps(plan, v) != [] {
      assert Deps(plan, v) == [m.source];
    }
  }

  lemma FedGrows(plan: Plan, a: seq<Injection>, b: seq<Injection>, did: set<Name>, c: Cid, v: Name)
    requires a <= b && Fed(plan, a, did, c, v)
    ensures Fed(plan, b, did, c, v)
  {
    if Deps(plan, v) == [] {
      var m: Msg :| m.cid == c && Injection(v, m) in a;
      MemberOfPrefix(Injection(v, m), a, b);
    } else {
      forall u | u in Deps(plan, v)
        ensures (IsGate(plan, u) && ReleasedBy(b, u, v, c)) || (IsWorker(plan, u) && u in did)
      {
        if IsGate(plan, u) && ReleasedBy(a, u, v, c) {
          var m: Msg :| m.cid == c && m.source == u && Injection(v, m) in a;
          MemberOfPrefix(Injection(v, m), a, b);
        }
      }
    }
  }

  lemma LaterPublishersWithin(plan: Plan, s: World, e: Event, t: World, did: set<Name>, c: Cid)
    requires Later(s, t) && OnlyNewFrom(plan, s, e, t) && Within(s, did, c)
    ensures PublishersWithin(t, did, c)
  {
    forall v, a |
      v in t.nodes && 0 <= a < |t.nodes[v].attempts| && t.nodes[v].attempts[a].cid == c
      && t.nodes[v].attempts[a].landed != []
      ensures v in did
    {
      assert LaterNode(s.nodes[v], t.nodes[v]);
    }
  }

  lemma StaysWithin(plan: Plan, s: World, e: Event, t: World, did: set<Name>, c: Cid)
    requires Sound(plan) && Swarm.Inv(plan, t) && Later(s, t) && OnlyNewFrom(plan, s, e, t)
    requires Within(s, did, c) && PublishersWithin(t, did, c) && Closed(plan, t.injected, did, c)
    ensures Within(t, did, c)
  {
    forall v, a | v in t.nodes && 0 <= a < |t.nodes[v].attempts| && t.nodes[v].attempts[a].cid == c ensures v in did {
      assert LaterNode(s.nodes[v], t.nodes[v]);
      if a >= |s.nodes[v].attempts| {
        AttemptIsFed(plan, t, did, v, a);
      }
    }
  }

  lemma ClosedBefore(plan: Plan, a: seq<Injection>, b: seq<Injection>, did: set<Name>, c: Cid)
    requires a <= b && Closed(plan, b, did, c)
    ensures Closed(plan, a, did, c)
  {
    forall v | Fed(plan, a, did, c, v) ensures v in did {
      FedGrows(plan, a, b, did, c, v);
    }
  }

  lemma {:induction false} RunStaysWithin(plan: Plan, states: seq<World>, events: seq<Event>, i: nat,
                                          injected: seq<Injection>, did: set<Name>, c: Cid)
    requires Sound(plan) && WorldRun(plan, states, events) && i <= |events|
    requires states[i].injected <= injected && Closed(plan, injected, did, c)
    ensures Within(states[i], did, c)
  {
    if i > 0 {
      RunIsLater(plan, states, events, i - 1);
      RunStaysWithin(plan, states, events, i - 1, injected, did, c);
      ClosedBefore(plan, states[i].injected, injected, did, c);
      NextStaysWithin(plan, states, events, i - 1, did, c);
    }
  }

  lemma NextStaysWithin(plan: Plan, states: seq<World>, events: seq<Event>, i: nat, did: set<Name>, c: Cid)
    requires Sound(plan) && WorldRun(plan, states, events) && i < |events|
    requires Within(states[i], did, c) && Closed(plan, states[i + 1].injected, did, c)
    ensures Within(states[i + 1], did, c)
  {
    RunIsLater(plan, states, events, i);
    LaterPublishersWithin(plan, states[i], events[i], states[i + 1], did, c);
    WorldRunKeeps(plan, states, events, i + 1);
    StaysWithin(plan, states[i], events[i], states[i + 1], did, c);
  }

  /** did is the least set of workers that holds whoever is fed by what entered and by did itself. */
  ghost predicate IsLeast(plan: Plan, injected: seq<Injection>, did: set<Name>, c: Cid) {
    Closed(plan, injected, did, c) && forall other :: Closed(plan, injected, other, c) ==> did <= other
  }

  /** In every run, at every point, only nodes in the closure of what entered for c ever work on c. */
  lemma NothingElseCompletes(plan: Plan, states: seq<World>, events: seq<Event>, did: set<Name>, c: Cid)
    requires Sound(plan) && WorldRun(plan, states, events) && Closed(plan, states[|events|].injected, did, c)
    ensures CompletedSet(plan, states[|events|], c) <= did
    ensures forall v, a :: v in states[|events|].nodes && 0 <= a < |states[|events|].nodes[v].attempts| ==>
              states[|events|].nodes[v].attempts[a].cid == c ==> v in did
  {
    RunStaysWithin(plan, states, events, |events|, states[|events|].injected, did, c);
  }

  /**
   After any run that has come to rest, the workers that completed c are exactly the least closure of what
   entered the swarm for c: everything that should have fired has, and nothing else.
   */
  lemma CompletedIsLeastClosure(plan: Plan, states: seq<World>, events: seq<Event>, c: Cid)
    requires Sound(plan) && WorldRun(plan, states, events) && Quiescent(plan, states[|events|])
    ensures IsLeast(plan, states[|events|].injected, CompletedSet(plan, states[|events|], c), c)
  {
    var s := states[|events|];
    var completed := CompletedSet(plan, s, c);
    WorldRunKeeps(plan, states, events, |events|);
    forall v | Fed(plan, s.injected, completed, c, v) ensures v in completed {
      FedMeansCompleted(plan, s, v, c);
    }
    forall other | Closed(plan, s.injected, other, c) ensures completed <= other {
      NothingElseCompletes(plan, states, events, other, c);
    }
  }
}
