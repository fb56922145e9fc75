/**
 The whole swarm: the controller's wiring composed with one runner machine per declared node. Every
 interleaving of runner steps, crashes, redeliveries and outside messages is a run.
 */
module Swarm {
  import opened Types
  import opened Runner
  import opened RunnerProofs
  import opened Wiring

  /** The deployed spec; `lanes` partitions a topic, and `part` is the producers' key partitioner. */
  datatype Plan = Plan(nodes: seq<NodeSpec>, lanes: nat, part: Cid -> nat)

  /** An outside message: an event for a root, or what a human releases from a gate. */
  datatype Injection = Injection(target: Name, m: Msg)

  datatype World = World(nodes: map<Name, Node>, injected: seq<Injection>)

  datatype Event = Act(v: Name, step: Step) | Inject(target: Name, p: nat, m: Msg)

  ghost predicate Sound(plan: Plan) {
    UniqueNames(plan.nodes) && DuplicateFree(plan.nodes) && forall c :: plan.part(c) < plan.lanes
  }

  ghost predicate Declared(plan: Plan, v: Name) {
    v in Names(plan.nodes)
  }

  ghost function Find(nodes: seq<NodeSpec>, v: Name): (n: NodeSpec)
    requires v in Names(nodes)
    ensures n in nodes && n.name == v
  {
    assert Names(nodes) == Names(nodes[..|nodes| - 1]) + [nodes[|nodes| - 1].name];
    if nodes[|nodes| - 1].name == v then nodes[|nodes| - 1] else Find(nodes[..|nodes| - 1], v)
  }

  ghost predicate IsWorker(plan: Plan, v: Name) {
    Declared(plan, v) && Find(plan.nodes, v).kind.WorkerNode?
  }

  ghost predicate IsGate(plan: Plan, v: Name) {
    Declared(plan, v) && Find(plan.nodes, v).kind.HumanInTheLoop?
  }

  ghost function Deps(plan: Plan, v: Name): seq<Name> {
    if Declared(plan, v) then Find(plan.nodes, v).deps else []
  }

  /** The nodes whose input topics are v's output topics, in order. */
  ghost function Outs(plan: Plan, v: Name): seq<Name> {
    Downstream(plan.nodes, v)
  }

  ghost function Cfg(plan: Plan, v: Name): Config {
    Config(Deps(plan, v), |Outs(plan, v)|, plan.lanes, plan.part)
  }

  ghost function Start(plan: Plan): World {
    World(map v | v in Elements(Names(plan.nodes)) :: Runner.Init(Cfg(plan, v)), [])
  }

  /** Outside writers reach roots only, and below a gate only on the gate's behalf. */
  ghost predicate Allowed(plan: Plan, v: Name, p: nat, m: Msg) {
    && Declared(plan, v) && p < plan.lanes
    && (Deps(plan, v) == [] || (m.source in Deps(plan, v) && IsGate(plan, m.source) && plan.part(m.cid) == p))
  }

  ghost predicate Can(plan: Plan, s: World, e: Event) {
    match e
    case Act(v, step) =>
      IsWorker(plan, v) && v in s.nodes && !step.Deliver? && Enabled(Cfg(plan, v), s.nodes[v], step)
    case Inject(v, p, m) => v in s.nodes && p < |s.nodes[v].lanes| && Allowed(plan, v, p, m)
  }

  ghost function Send(nodes: map<Name, Node>, w: Name, p: nat, m: Msg): map<Name, Node> {
    if w in nodes && p < |nodes[w].lanes| then nodes[w := DoDeliver(nodes[w], p, m)] else nodes
  }

  /** A landed publish appends the envelope to the next output topic in the same step. */
  ghost function Do(plan: Plan, s: World, e: Event): World
    requires Can(plan, s, e)
  {
    match e
    case Act(v, step) =>
      var nodes := s.nodes[v := Apply(Cfg(plan, v), s.nodes[v], step)];
      if Lands(step) then
        var t := s.nodes[v].attempts[LandedBy(s.nodes[v], step)];
        s.(nodes := Send(nodes, Outs(plan, v)[|t.landed|], plan.part(t.cid), Msg(t.cid, v, t.out)))
      else s.(nodes := nodes)
    case Inject(v, p, m) =>
      s.(nodes := Send(s.nodes, v, p, m), injected := s.injected + [Injection(v, m)])
  }

  ghost predicate WorldRun(plan: Plan, states: seq<World>, events: seq<Event>) {
    && |states| == |events| + 1 && states[0] == Start(plan)
    && forall i :: 0 <= i < |events| ==>
         Can(plan, states[i], events[i]) && states[i + 1] == Do(plan, states[i], events[i])
  }

  // ---------- The invariant ----------

  /** The result of u's attempt t is in w's input log. */
  ghost predicate Reached(plan: Plan, nodes: map<Name, Node>, w: Name, u: Name, t: Attempt) {
    && w in nodes && plan.part(t.cid) < |nodes[w].lanes|
    && Msg(t.cid, u, t.out) in nodes[w].lanes[plan.part(t.cid)].log
  }

  /** Attempt t of u is in the log of every topic it claims to have reached. */
  ghost predicate Delivered(plan: Plan, nodes: map<Name, Node>, u: Name, t: Attempt) {
    && |t.landed| <= |Outs(plan, u)|
    && forall k :: 0 <= k < |t.landed| ==> Reached(plan, nodes, Outs(plan, u)[k], u, t)
  }

  ghost predicate Carries(plan: Plan, u: Name, t: Attempt, v: Name, m: Msg) {
    t.cid == m.cid && t.out == m.data && exists k :: 0 <= k < |t.landed| && k < |Outs(plan, u)| && Outs(plan, u)[k] == v
  }

  ghost predicate SentBy(plan: Plan, attempts: seq<Attempt>, u: Name, v: Name, m: Msg) {
    exists a :: 0 <= a < |attempts| && Carries(plan, u, attempts[a], v, m)
  }

  /** Where a message in v's partition p can have come from. */
  ghost predicate Traced(plan: Plan, s: World, v: Name, p: nat, m: Msg) {
    if Deps(plan, v) == [] then Injection(v, m) in s.injected
    else
      && m.source in Deps(plan, v) && plan.part(m.cid) == p
      && if IsGate(plan, m.source) then Injection(v, m) in s.injected
         else
           && IsWorker(plan, m.source) && m.source in s.nodes
           && SentBy(plan, s.nodes[m.source].attempts, m.source, v, m)
  }

  ghost predicate InSomeLane(lanes: seq<Lane>, m: Msg) {
    exists p :: 0 <= p < |lanes| && m in lanes[p].log
  }

  ghost predicate NodesOk(plan: Plan, s: World) {
    && (forall v :: v in s.nodes <==> Declared(plan, v))
    && forall v :: v in s.nodes ==> Runner.Inv(Cfg(plan, v), s.nodes[v])
  }

  ghost predicate WiresOk(plan: Plan, s: World) {
    forall u, a :: u in s.nodes && 0 <= a < |s.nodes[u].attempts| ==>
      Delivered(plan, s.nodes, u, s.nodes[u].attempts[a])
  }

  ghost predicate LogsTraced(plan: Plan, s: World) {
    forall v, p, i :: v in s.nodes && 0 <= p < |s.nodes[v].lanes| && 0 <= i < |s.nodes[v].lanes[p].log| ==>
      Traced(plan, s, v, p, s.nodes[v].lanes[p].log[i])
  }

  ghost predicate InjectedKept(plan: Plan, s: World) {
    forall i :: 0 <= i < |s.injected| ==>
      s.injected[i].target in s.nodes && InSomeLane(s.nodes[s.injected[i].target].lanes, s.injected[i].m)
  }

  ghost predicate Inv(plan: Plan, s: World) {
    NodesOk(plan, s) && WiresOk(plan, s) && LogsTraced(plan, s) && InjectedKept(plan, s)
  }

  // ---------- Every event keeps it ----------

  /** What one runner step other than a delivery can do to the node's logs and history. */
  ghost predicate Advances(s: Node, t: Node, landing: bool, a: nat) {
    && |s.lanes| == |t.lanes| && (forall p :: 0 <= p < |s.lanes| ==> s.lanes[p].log == t.lanes[p].log)
    && |s.attempts| <= |t.attempts|
    && (landing ==>
          && a < |s.attempts|
          && t.attempts == s.attempts[a := s.attempts[a].(landed := s.attempts[a].landed + [|s.attempts[a].landed|])])
    && (!landing ==> s.attempts <= t.attempts)
    && forall k :: |s.attempts| <= k < |t.attempts| ==> t.attempts[k].landed == []
  }

  lemma StepAdvances(cfg: Config, s: Node, step: Step)
    requires Enabled(cfg, s, step) && !step.Deliver?
    ensures Advances(s, Apply(cfg, s, step), Lands(step), LandedBy(s, step))
  {
    if step.RunAgent? || step.Land? || step.Finish? || step.Bury? {
      WorkerAdvances(cfg, s, step);
    } else if step.StrayRun? || step.StrayLand? {
      StrayAdvances(cfg, s, step);
    } else {
      assert Apply(cfg, s, step).attempts == s.attempts;
    }
  }

  lemma WorkerAdvances(cfg: Config, s: Node, step: Step)
    requires Enabled(cfg, s, step) && (step.RunAgent? || step.Land? || step.Finish? || step.Bury?)
    ensures Advances(s, Apply(cfg, s, step), Lands(step), LandedBy(s, step))
  {
  }

  lemma StrayAdvances(cfg: Config, s: Node, step: Step)
    requires Enabled(cfg, s, step) && (step.StrayRun? || step.StrayLand?)
    ensures Advances(s, Apply(cfg, s, step), Lands(step), LandedBy(s, step))
  {
  }

  /** Logs only grow, attempts only advance. */
  ghost predicate Later(s: World, t: World) {
    && s.nodes.Keys == t.nodes.Keys && s.injected <= t.injected
    && forall v :: v in s.nodes ==> LaterNode(s.nodes[v], t.nodes[v])
  }

  ghost predicate LaterNode(s: Node, t: Node) {
    && |s.lanes| == |t.lanes| && (forall p :: 0 <= p < |s.lanes| ==> s.lanes[p].log <= t.lanes[p].log)
    && |s.attempts| <= |t.attempts|
    && forall k :: 0 <= k < |s.attempts| ==>
         && t.attempts[k] == s.attempts[k].(landed := t.attempts[k].landed)
         && s.attempts[k].landed <= t.attempts[k].landed
  }

  lemma MemberOfPrefix<T>(x: T, a: seq<T>, b: seq<T>)
    requires x in a && a <= b
    ensures x in b
  {
    var i :| 0 <= i < |a| && a[i] == x;
    assert b[i] == x;
  }

  lemma SentByLater(plan: Plan, s: World, t: World, u: Name, v: Name, m: Msg)
    requires Later(s, t) && u in s.nodes && SentBy(plan, s.nodes[u].attempts, u, v, m)
    ensures SentBy(plan, t.nodes[u].attempts, u, v, m)
  {
    var a :| 0 <= a < |s.nodes[u].attempts| && Carries(plan, u, s.nodes[u].attempts[a], v, m);
    assert LaterNode(s.nodes[u], t.nodes[u]);
    assert Carries(plan, u, t.nodes[u].attempts[a], v, m);
  }

  lemma TracedLater(plan: Plan, s: World, t: World, v: Name, p: nat, m: Msg)
    requires Later(s, t) && Traced(plan, s, v, p, m)
    ensures Traced(plan, t, v, p, m)
  {
    if Injection(v, m) in s.injected {
      MemberOfPrefix(Injection(v, m), s.injected, t.injected);
    }
    if Deps(plan, v) != [] && !IsGate(plan, m.source) {
      SentByLater(plan, s, t, m.source, v, m);
    }
  }

  lemma DeliveredLater(plan: Plan, s: World, t: World, u: Name, x: Attempt)
    requires Later(s, t) && Delivered(plan, s.nodes, u, x)
    ensures Delivered(plan, t.nodes, u, x)
  {
    forall k | 0 <= k < |x.landed| ensures Reached(plan, t.nodes, Outs(plan, u)[k], u, x) {
      var w := Outs(plan, u)[k];
      assert Reached(plan, s.nodes, w, u, x) && LaterNode(s.nodes[w], t.nodes[w]);
      MemberOfPrefix(Msg(x.cid, u, x.out), s.nodes[w].lanes[plan.part(x.cid)].log,
        t.nodes[w].lanes[plan.part(x.cid)].log);
    }
  }

  lemma InjectedLater(plan: Plan, s: World, t: World)
    requires Later(s, t) && InjectedKept(plan, s)
    requires forall i :: |s.injected| <= i < |t.injected| ==>
               t.injected[i].target in t.nodes && InSomeLane(t.nodes[t.injected[i].target].lanes, t.injected[i].m)
    ensures InjectedKept(plan, t)
  {
    assert s.injected <= t.injected;
    forall i | 0 <= i < |s.injected|
      ensures t.injected[i].target in t.nodes && InSomeLane(t.nodes[t.injected[i].target].lanes, t.injected[i].m)
    {
      var v, m := s.injected[i].target, s.injected[i].m;
      assert t.injected[i] == s.injected[i] && LaterNode(s.nodes[v], t.nodes[v]);
      var p :| 0 <= p < |s.nodes[v].lanes| && m in s.nodes[v].lanes[p].log;
      MemberOfPrefix(m, s.nodes[v].lanes[p].log, t.nodes[v].lanes[p].log);
    }
  }

  /** Attempts that are not simply unchanged are delivered as far as they claim. */
  ghost predicate NewDelivered(plan: Plan, s: World, t: World) {
    forall u, a :: u in t.nodes && 0 <= a < |t.nodes[u].attempts| ==>
      || (u in s.nodes && a < |s.nodes[u].attempts| && t.nodes[u].attempts[a] == s.nodes[u].attempts[a])
      || Delivered(plan, t.nodes, u, t.nodes[u].attempts[a])
  }

  ghost predicate NewTraced(plan: Plan, s: World, t: World) {
    forall v, p, i :: v in t.nodes && 0 <= p < |t.nodes[v].lanes| && 0 <= i < |t.nodes[v].lanes[p].log| ==>
      || (v in s.nodes && p < |s.nodes[v].lanes| && i < |s.nodes[v].lanes[p].log|)
      || Traced(plan, t, v, p, t.nodes[v].lanes[p].log[i])
  }

  /** Everything old stays in order; only what is new in t is left to show. */
  lemma LaterKeeps(plan: Plan, s: World, t: World)
    requires WiresOk(plan, s) && LogsTraced(plan, s) && Later(s, t) && NewDelivered(plan, s, t) && NewTraced(plan, s, t)
    ensures WiresOk(plan, t) && LogsTraced(plan, t)
  {
    forall u, a | u in t.nodes && 0 <= a < |t.nodes[u].attempts|
      ensures Delivered(plan, t.nodes, u, t.nodes[u].attempts[a])
    {
      assert LaterNode(s.nodes[u], t.nodes[u]);
      if a < |s.nodes[u].attempts| && t.nodes[u].attempts[a] == s.nodes[u].attempts[a] {
        DeliveredLater(plan, s, t, u, s.nodes[u].attempts[a]);
      }
    }
    forall v, p, i | v in t.nodes && 0 <= p < |t.nodes[v].lanes| && 0 <= i < |t.nodes[v].lanes[p].log|
      ensures Traced(plan, t, v, p, t.nodes[v].lanes[p].log[i])
    {
      assert LaterNode(s.nodes[v], t.nodes[v]);
      if i < |s.nodes[v].lanes[p].log| {
        assert s.nodes[v].lanes[p].log[i] == t.nodes[v].lanes[p].log[i];
        TracedLater(plan, s, t, v, p, s.nodes[v].lanes[p].log[i]);
      }
    }
  }

  // ---------- One event at a time ----------

  lemma NodesUpdate(plan: Plan, s: World, t: World, v: Name)
    requires NodesOk(plan, s) && v in s.nodes && v in t.nodes && t.nodes == s.nodes[v := t.nodes[v]]
    requires Runner.Inv(Cfg(plan, v), t.nodes[v])
    ensures NodesOk(plan, t)
  {
  }

  lemma NodeStep(plan: Plan, s: World, v: Name, step: Step)
    requires NodesOk(plan, s) && Can(plan, s, Act(v, step))
    ensures var n := Apply(Cfg(plan, v), s.nodes[v], step);
            && Runner.Inv(Cfg(plan, v), n)
            && Advances(s.nodes[v], n, Lands(step), LandedBy(s.nodes[v], step))
  {
    StepKeeps(Cfg(plan, v), s.nodes[v], step);
    StepAdvances(Cfg(plan, v), s.nodes[v], step);
  }

  lemma OutputsExist(plan: Plan, u: Name, k: nat)
    requires Sound(plan) && k < |Outs(plan, u)|
    ensures Declared(plan, Outs(plan, u)[k]) && u in Deps(plan, Outs(plan, u)[k])
  {
    var w := Outs(plan, u)[k];
    OutputsAreDependents(plan.nodes, u);
    DependentsExact(plan.nodes, u);
    assert w in Dependents(plan.nodes, u);
    var i :| 0 <= i < |plan.nodes| && plan.nodes[i].name == w && u in plan.nodes[i].deps;
    assert Names(plan.nodes)[i] == w;
    assert Find(plan.nodes, w) == plan.nodes[i];
  }

  lemma DepsAreOutputs(plan: Plan, u: Name, v: Name)
    requires Sound(plan) && Declared(plan, v) && u in Deps(plan, v)
    ensures v in Outs(plan, u)
  {
    WiringIsTranspose(SwarmSpec("", [], plan.nodes), u, Find(plan.nodes, v));
  }

  lemma QuietStepIsLater(plan: Plan, s: World, v: Name, n: Node)
    requires v in s.nodes && Advances(s.nodes[v], n, false, 0)
    ensures var t := s.(nodes := s.nodes[v := n]); Later(s, t) && NewDelivered(plan, s, t) && NewTraced(plan, s, t)
  {
  }

  lemma StepEventKeeps(plan: Plan, s: World, v: Name, step: Step)
    requires Sound(plan) && Inv(plan, s) && Can(plan, s, Act(v, step)) && !Lands(step)
    ensures Inv(plan, Do(plan, s, Act(v, step)))
  {
    var t := Do(plan, s, Act(v, step));
    NodeStep(plan, s, v, step);
    QuietStepIsLater(plan, s, v, t.nodes[v]);
    NodesUpdate(plan, s, t, v);
    LaterKeeps(plan, s, t);
    InjectedLater(plan, s, t);
  }

  /** Node v becomes n, then m lands in w's partition p. */
  ghost function Landing(s: World, v: Name, n: Node, w: Name, p: nat, m: Msg): World {
    s.(nodes := Send(s.nodes[v := n], w, p, m))
  }

  /** What is in t's logs beyond those of s is m, in w's partition p. */
  ghost predicate OnlyNewIs(s: World, t: World, w: Name, p: nat, m: Msg) {
    forall x, q, i :: x in t.nodes && 0 <= q < |t.nodes[x].lanes| && 0 <= i < |t.nodes[x].lanes[q].log| ==>
      || (x in s.nodes && q < |s.nodes[x].lanes| && i < |s.nodes[x].lanes[q].log|)
      || (x == w && q == p && t.nodes[x].lanes[q].log[i] == m)
  }

  lemma LandingIsLater(plan: Plan, s: World, v: Name, n: Node, a: nat, w: Name, p: nat, m: Msg)
    requires v in s.nodes && w in s.nodes && p < |s.nodes[w].lanes| && Advances(s.nodes[v], n, true, a)
    ensures var t := Landing(s, v, n, w, p, m);
            && Later(s, t) && v in t.nodes && t.nodes[v].attempts == n.attempts
            && w in t.nodes && p < |t.nodes[w].lanes| && m in t.nodes[w].lanes[p].log && OnlyNewIs(s, t, w, p, m)
  {
    var t := Landing(s, v, n, w, p, m);
    var mid := s.(nodes := s.nodes[v := n]);
    AdvancedIsLater(s, v, n, a);
    DeliveredIsLater(s, mid, w, p, m);
    assert t == mid.(nodes := mid.nodes[w := DoDeliver(mid.nodes[w], p, m)]);
  }

  lemma AdvancedIsLater(s: World, v: Name, n: Node, a: nat)
    requires v in s.nodes && Advances(s.nodes[v], n, true, a)
    ensures var t := s.(nodes := s.nodes[v := n]); Later(s, t) && SameLogs(s, t)
  {
    assert LaterNode(s.nodes[v], n);
  }

  ghost predicate SameLogs(s: World, t: World) {
    && s.nodes.Keys == t.nodes.Keys
    && forall x :: x in s.nodes ==>
         && |s.nodes[x].lanes| == |t.nodes[x].lanes|
         && forall q :: 0 <= q < |s.nodes[x].lanes| ==> s.nodes[x].lanes[q].log == t.nodes[x].lanes[q].log
  }

  lemma DeliveredIsLater(s: World, mid: World, w: Name, p: nat, m: Msg)
    requires Later(s, mid) && SameLogs(s, mid) && w in mid.nodes && p < |mid.nodes[w].lanes|
    ensures var n := DoDeliver(mid.nodes[w], p, m); var t := mid.(nodes := mid.nodes[w := n]);
            Later(s, t) && OnlyNewIs(s, t, w, p, m) && m in n.lanes[p].log && n.attempts == mid.nodes[w].attempts
  {
    var n := DoDeliver(mid.nodes[w], p, m);
    var t := mid.(nodes := mid.nodes[w := n]);
    DeliverIsLater(s.nodes[w], mid.nodes[w], p, m);
    UpdateIsLater(s, mid, w, n);
    DeliveredIsNew(s, mid, w, p, m);
  }

  lemma UpdateIsLater(s: World, mid: World, w: Name, n: Node)
    requires Later(s, mid) && w in mid.nodes && LaterNode(s.nodes[w], n)
    ensures Later(s, mid.(nodes := mid.nodes[w := n]))
  {
  }

  lemma DeliveredIsNew(s: World, mid: World, w: Name, p: nat, m: Msg)
    requires SameLogs(s, mid) && w in mid.nodes && p < |mid.nodes[w].lanes|
    ensures OnlyNewIs(s, mid.(nodes := mid.nodes[w := DoDeliver(mid.nodes[w], p, m)]), w, p, m)
  {
    var t := mid.(nodes := mid.nodes[w := DoDeliver(mid.nodes[w], p, m)]);
    forall x, q, i | x in t.nodes && 0 <= q < |t.nodes[x].lanes| && 0 <= i < |t.nodes[x].lanes[q].log|
      ensures (x in s.nodes && q < |s.nodes[x].lanes| && i < |s.nodes[x].lanes[q].log|) ||
              (x == w && q == p && t.nodes[x].lanes[q].log[i] == m)
    {
      assert s.nodes[x].lanes[q].log == mid.nodes[x].lanes[q].log;
    }
  }

  lemma DeliverIsLater(a: Node, b: Node, p: nat, m: Msg)
    requires LaterNode(a, b) && p < |b.lanes|
    ensures LaterNode(a, DoDeliver(b, p, m)) && m in DoDeliver(b, p, m).lanes[p].log
  {
    var log := DoDeliver(b, p, m).lanes[p].log;
    assert log[|log| - 1] == m;
  }

  lemma LandingDelivers(plan: Plan, s: World, v: Name, n: Node, a: nat, w: Name, p: nat, m: Msg)
    requires v in s.nodes && w in s.nodes && p < |s.nodes[w].lanes| && Advances(s.nodes[v], n, true, a)
    requires var x := s.nodes[v].attempts[a];
             && Delivered(plan, s.nodes, v, x) && |x.landed| < |Outs(plan, v)| && w == Outs(plan, v)[|x.landed|]
             && p == plan.part(x.cid) && m == Msg(x.cid, v, x.out)
    requires IsWorker(plan, v) && !IsGate(plan, v) && v in Deps(plan, w)
    ensures var t := Landing(s, v, n, w, p, m);
            && Later(s, t) && NewDelivered(plan, s, t) && NewTraced(plan, s, t)
  {
    var t := Landing(s, v, n, w, p, m);
    LandingIsLater(plan, s, v, n, a, w, p, m);
    LandedAttempt(plan, s, t, v, n, a, w, p, m);
    LandingTraced(plan, s, t, v, w, p, m);
    LandingDelivered(plan, s, t, v, n, a, w, p, m);
  }

  lemma LandingTraced(plan: Plan, s: World, t: World, v: Name, w: Name, p: nat, m: Msg)
    requires Later(s, t) && OnlyNewIs(s, t, w, p, m) && v in t.nodes && SentBy(plan, t.nodes[v].attempts, v, w, m)
    requires IsWorker(plan, v) && !IsGate(plan, v) && v in Deps(plan, w) && m.source == v && plan.part(m.cid) == p
    ensures NewTraced(plan, s, t)
  {
    assert Traced(plan, t, w, p, m);
  }

  lemma LandingDelivered(plan: Plan, s: World, t: World, v: Name, n: Node, a: nat, w: Name, p: nat, m: Msg)
    requires v in s.nodes && w in s.nodes && p < |s.nodes[w].lanes| && t == Landing(s, v, n, w, p, m)
    requires Advances(s.nodes[v], n, true, a) && v in t.nodes && t.nodes[v].attempts == n.attempts
    requires Delivered(plan, t.nodes, v, n.attempts[a])
    ensures NewDelivered(plan, s, t)
  {
    forall u, b | u in t.nodes && 0 <= b < |t.nodes[u].attempts|
      ensures (u in s.nodes && b < |s.nodes[u].attempts| && t.nodes[u].attempts[b] == s.nodes[u].attempts[b]) ||
              Delivered(plan, t.nodes, u, t.nodes[u].attempts[b])
    {
      assert u != v ==> t.nodes[u].attempts == s.nodes[u].attempts;
    }
  }

  /** The attempt that has just landed is in the log of one more topic. */
  lemma LandedAttempt(plan: Plan, s: World, t: World, v: Name, n: Node, a: nat, w: Name, p: nat, m: Msg)
    requires v in s.nodes && Later(s, t) && Advances(s.nodes[v], n, true, a) && t.nodes[v].attempts == n.attempts
    requires var x := s.nodes[v].attempts[a];
             && Delivered(plan, s.nodes, v, x) && |x.landed| < |Outs(plan, v)| && w == Outs(plan, v)[|x.landed|]
             && p == plan.part(x.cid) && m == Msg(x.cid, v, x.out)
    requires w in t.nodes && p < |t.nodes[w].lanes| && m in t.nodes[w].lanes[p].log
    ensures Delivered(plan, t.nodes, v, t.nodes[v].attempts[a]) && Carries(plan, v, t.nodes[v].attempts[a], w, m)
    ensures SentBy(plan, t.nodes[v].attempts, v, w, m)
  {
    var x, y := s.nodes[v].attempts[a], t.nodes[v].attempts[a];
    DeliveredLater(plan, s, t, v, x);
    forall k | 0 <= k < |y.landed| ensures Reached(plan, t.nodes, Outs(plan, v)[k], v, y) {
      assert k < |x.landed| ==> Reached(plan, t.nodes, Outs(plan, v)[k], v, x);
    }
    assert y.landed[|x.landed|] == |x.landed|;
  }

  lemma LandingNodesOk(plan: Plan, s: World, v: Name, n: Node, w: Name, p: nat, m: Msg)
    requires NodesOk(plan, s) && v in s.nodes && w in s.nodes && Runner.Inv(Cfg(plan, v), n)
    requires p == plan.part(m.cid) < plan.lanes && m.source in Deps(plan, w)
    ensures NodesOk(plan, Landing(s, v, n, w, p, m)) && p < |s.nodes[w].lanes|
  {
    var mid := s.(nodes := s.nodes[v := n]);
    NodesUpdate(plan, s, mid, v);
    assert Runner.Inv(Cfg(plan, w), mid.nodes[w]);
    DeliverKeeps(Cfg(plan, w), mid.nodes[w], p, m);
    NodesUpdate(plan, mid, Landing(s, v, n, w, p, m), w);
  }

  /** What a publish step of v's attempt a sends, and where. */
  lemma LandFacts(plan: Plan, s: World, v: Name, step: Step) returns (n: Node, a: nat, w: Name, p: nat, m: Msg)
    requires Sound(plan) && Can(plan, s, Act(v, step)) && Lands(step)
    ensures n == Apply(Cfg(plan, v), s.nodes[v], step) && Advances(s.nodes[v], n, true, a)
    ensures var x := s.nodes[v].attempts[a];
            && |x.landed| < |Outs(plan, v)| && w == Outs(plan, v)[|x.landed|]
            && p == plan.part(x.cid) < plan.lanes && m == Msg(x.cid, v, x.out)
    ensures Declared(plan, w) && m.source in Deps(plan, w)
    ensures Do(plan, s, Act(v, step)) == Landing(s, v, n, w, p, m)
  {
    n, a := Apply(Cfg(plan, v), s.nodes[v], step), LandedBy(s.nodes[v], step);
    StepAdvances(Cfg(plan, v), s.nodes[v], step);
    var x := s.nodes[v].attempts[a];
    w, p, m := Outs(plan, v)[|x.landed|], plan.part(x.cid), Msg(x.cid, v, x.out);
    OutputsExist(plan, v, |x.landed|);
  }

  lemma LandEventKeeps(plan: Plan, s: World, v: Name, step: Step)
    requires Sound(plan) && Inv(plan, s) && Can(plan, s, Act(v, step)) && Lands(step)
    ensures Inv(plan, Do(plan, s, Act(v, step)))
  {
    var n, a, w, p, m := LandFacts(plan, s, v, step);
    NodeStep(plan, s, v, step);
    LandingNodesOk(plan, s, v, n, w, p, m);
    LandingDelivers(plan, s, v, n, a, w, p, m);
    var t := Landing(s, v, n, w, p, m);
    LaterKeeps(plan, s, t);
    InjectedLater(plan, s, t);
  }

  lemma InjectionIsLater(plan: Plan, s: World, v: Name, p: nat, m: Msg)
    requires v in s.nodes && p < |s.nodes[v].lanes| && Allowed(plan, v, p, m)
    ensures var t := Do(plan, s, Inject(v, p, m));
            && t.nodes == s.nodes[v := DoDeliver(s.nodes[v], p, m)] && t.injected == s.injected + [Injection(v, m)]
            && Later(s, t) && NewDelivered(plan, s, t) && NewTraced(plan, s, t)
            && InSomeLane(t.nodes[v].lanes, m)
  {
    var t := Do(plan, s, Inject(v, p, m));
    var n := DoDeliver(s.nodes[v], p, m);
    assert t.nodes == s.nodes[v := n];
    DeliverIsLater(s.nodes[v], s.nodes[v], p, m);
    assert t.injected[|s.injected|] == Injection(v, m);
    assert Traced(plan, t, v, p, m);
    forall x | x in s.nodes ensures LaterNode(s.nodes[x], t.nodes[x]) {
      assert x != v ==> t.nodes[x] == s.nodes[x];
    }
  }

  lemma InjectEventKeeps(plan: Plan, s: World, v: Name, p: nat, m: Msg)
    requires Sound(plan) && Inv(plan, s) && Can(plan, s, Inject(v, p, m))
    ensures Inv(plan, Do(plan, s, Inject(v, p, m)))
  {
    var t := Do(plan, s, Inject(v, p, m));
    InjectedNodesOk(plan, s, v, p, m);
    InjectKeepsWires(plan, s, v, p, m);
    NodesUpdate(plan, s, t, v);
  }

  lemma InjectKeepsWires(plan: Plan, s: World, v: Name, p: nat, m: Msg)
    requires WiresOk(plan, s) && LogsTraced(plan, s) && InjectedKept(plan, s)
    requires v in s.nodes && p < |s.nodes[v].lanes| && Allowed(plan, v, p, m)
    ensures var t := Do(plan, s, Inject(v, p, m));
            && WiresOk(plan, t) && LogsTraced(plan, t) && InjectedKept(plan, t)
            && t.nodes == s.nodes[v := DoDeliver(s.nodes[v], p, m)]
  {
    var t := Do(plan, s, Inject(v, p, m));
    InjectionIsLater(plan, s, v, p, m);
    LaterKeeps(plan, s, t);
    InjectedLater(plan, s, t);
  }

  lemma InjectedNodesOk(plan: Plan, s: World, v: Name, p: nat, m: Msg)
    requires NodesOk(plan, s) && v in s.nodes && p < |s.nodes[v].lanes| && Allowed(plan, v, p, m)
    ensures Runner.Inv(Cfg(plan, v), DoDeliver(s.nodes[v], p, m))
  {
    DeliverKeeps(Cfg(plan, v), s.nodes[v], p, m);
  }

  ghost predicate LanesMatch(plan: Plan, s: World) {
    forall v :: (v in s.nodes <==> Declared(plan, v)) && (v in s.nodes ==> |s.nodes[v].lanes| == plan.lanes)
  }

  /** New attempts belong to the runner that moved, and have reached nothing yet. */
  ghost predicate OnlyNewFrom(plan: Plan, s: World, e: Event, t: World) {
    forall v, a :: v in t.nodes && v in s.nodes && |s.nodes[v].attempts| <= a < |t.nodes[v].attempts| ==>
      e.Act? && e.v == v && IsWorker(plan, v) && t.nodes[v].attempts[a].landed == []
  }

  lemma LandIsLater(plan: Plan, s: World, v: Name, step: Step)
    requires Sound(plan) && LanesMatch(plan, s) && Can(plan, s, Act(v, step)) && Lands(step)
    ensures var t := Do(plan, s, Act(v, step)); Later(s, t) && OnlyNewFrom(plan, s, Act(v, step), t)
  {
    var n, a, w, p, m := LandFacts(plan, s, v, step);
    assert p < |s.nodes[w].lanes|;
    LandingIsLater(plan, s, v, n, a, w, p, m);
    LandingNew(plan, s, v, n, a, w, p, m, step);
  }

  lemma LandingNew(plan: Plan, s: World, v: Name, n: Node, a: nat, w: Name, p: nat, m: Msg, step: Step)
    requires v in s.nodes && w in s.nodes && IsWorker(plan, v) && Advances(s.nodes[v], n, true, a)
    ensures OnlyNewFrom(plan, s, Act(v, step), Landing(s, v, n, w, p, m))
  {
  }

  lemma QuietIsLater(plan: Plan, s: World, v: Name, step: Step)
    requires Can(plan, s, Act(v, step)) && !Lands(step)
    ensures var t := Do(plan, s, Act(v, step)); Later(s, t) && OnlyNewFrom(plan, s, Act(v, step), t)
  {
    var n := Apply(Cfg(plan, v), s.nodes[v], step);
    StepAdvances(Cfg(plan, v), s.nodes[v], step);
    QuietStepIsLater(plan, s, v, n);
    assert Do(plan, s, Act(v, step)) == s.(nodes := s.nodes[v := n]);
  }

  /** Logs only grow and attempts only advance. */
  lemma EventIsLater(plan: Plan, s: World, e: Event)
    requires Sound(plan) && LanesMatch(plan, s) && Can(plan, s, e)
    ensures Later(s, Do(plan, s, e)) && OnlyNewFrom(plan, s, e, Do(plan, s, e))
  {
    match e
    case Inject(v, p, m) => InjectionIsLater(plan, s, v, p, m);
    case Act(v, step) =>
      if Lands(step) {
        LandIsLater(plan, s, v, step);
      } else {
        QuietIsLater(plan, s, v, step);
      }
  }

  lemma StartOk(plan: Plan)
    requires Sound(plan)
    ensures Inv(plan, Start(plan))
  {
    forall v | Declared(plan, v) ensures Runner.Inv(Cfg(plan, v), Start(plan).nodes[v]) {
      InitOk(Cfg(plan, v));
    }
  }

  /** Along every run of the swarm. */
  lemma {:induction false} WorldRunKeeps(plan: Plan, states: seq<World>, events: seq<Event>, i: nat)
    requires Sound(plan) && WorldRun(plan, states, events) && i <= |events|
    ensures Inv(plan, states[i])
  {
    if i == 0 {
      StartOk(plan);
    } else {
      WorldRunKeeps(plan, states, events, i - 1);
      match events[i - 1]
      case Act(v, step) =>
        if Lands(step) {
          LandEventKeeps(plan, states[i - 1], v, step);
        } else {
          StepEventKeeps(plan, states[i - 1], v, step);
        }
      case Inject(v, p, m) => InjectEventKeeps(plan, states[i - 1], v, p, m);
    }
  }

  lemma RunIsLater(plan: Plan, states: seq<World>, events: seq<Event>, i: nat)
    requires Sound(plan) && WorldRun(plan, states, events) && i < |events|
    ensures Later(states[i], states[i + 1]) && OnlyNewFrom(plan, states[i], events[i], states[i + 1])
  {
    WorldRunKeeps(plan, states, events, i);
    NodesMatch(plan, states[i]);
    EventIsLater(plan, states[i], events[i]);
  }

  lemma NodesMatch(plan: Plan, s: World)
    requires NodesOk(plan, s)
    ensures LanesMatch(plan, s)
  {
    assert forall v :: v in s.nodes ==> Runner.Inv(Cfg(plan, v), s.nodes[v]);
  }
}
