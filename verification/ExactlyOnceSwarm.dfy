/** Failure-free runs of the whole swarm: each node fires at most once, and the work is bounded by the edges. */
module ExactlyOnceSwarm {
  import opened Types
  import opened Runner
  import opened RunnerProofs
  import opened Wiring
  import opened Swarm
  import opened SwarmTheorems
  import opened ExactlyOnce

  ghost predicate CalmEvent(e: Event) {
    e.Act? ==> Calm(e.step)
  }

  ghost predicate CalmRun(plan: Plan, states: seq<World>, events: seq<Event>) {
    WorldRun(plan, states, events) && forall i :: 0 <= i < |events| ==> CalmEvent(events[i])
  }

  /** c enters each root once, and each gate releases it once to each of its dependents. */
  ghost predicate EntersOnce(plan: Plan, injected: seq<Injection>, c: Cid) {
    forall i, j ::
      0 <= i < j < |injected| && injected[i].target == injected[j].target && injected[i].m.cid == c
        && injected[j].m.cid == c
      ==> Deps(plan, injected[i].target) != [] && injected[i].m.source != injected[j].m.source
  }

  ghost predicate NodeOnce(cfg: Config, n: Node, c: Cid) {
    Once(cfg, n, c) && Unrepeated(n, c, !cfg.FanIn())
  }

  ghost predicate AllOnce(plan: Plan, s: World, c: Cid) {
    forall v :: v in s.nodes ==> NodeOnce(Cfg(plan, v), s.nodes[v], c)
  }

  // ---------- Messages are not repeated ----------

  ghost predicate NotYetIn(n: Node, m: Msg, anySource: bool) {
    forall q, j :: 0 <= q < |n.lanes| && 0 <= j < |n.lanes[q].log| && n.lanes[q].log[j].cid == m.cid ==>
      !anySource && n.lanes[q].log[j].source != m.source
  }

  lemma DeliverUnrepeated(n: Node, p: nat, m: Msg, c: Cid, anySource: bool)
    requires p < |n.lanes| && Unrepeated(n, c, anySource) && (m.cid == c ==> NotYetIn(n, m, anySource))
    ensures Unrepeated(DoDeliver(n, p, m), c, anySource)
  {
  }

  lemma SameLogsUnrepeated(a: Node, b: Node, c: Cid, anySource: bool)
    requires Unrepeated(a, c, anySource) && |a.lanes| == |b.lanes|
    requires forall p :: 0 <= p < |a.lanes| ==> a.lanes[p].log == b.lanes[p].log
    ensures Unrepeated(b, c, anySource)
  {
  }

  lemma DeliverOnce(cfg: Config, n: Node, p: nat, m: Msg, c: Cid)
    requires Distinct(cfg.deps) && Runner.Inv(cfg, n) && NodeOnce(cfg, n, c) && CanDeliver(cfg, n, p, m)
    requires m.cid == c ==> NotYetIn(n, m, !cfg.FanIn())
    ensures NodeOnce(cfg, DoDeliver(n, p, m), c)
  {
    assert Apply(cfg, n, Deliver(p, m)) == DoDeliver(n, p, m);
    CalmStepOnce(cfg, n, Deliver(p, m), c);
    DeliverUnrepeated(n, p, m, c, !cfg.FanIn());
  }

  lemma StepOnce(cfg: Config, n: Node, step: Step, c: Cid)
    requires Distinct(cfg.deps) && Runner.Inv(cfg, n) && NodeOnce(cfg, n, c)
    requires Enabled(cfg, n, step) && Calm(step) && !step.Deliver?
    ensures NodeOnce(cfg, Apply(cfg, n, step), c)
  {
    CalmStepOnce(cfg, n, step, c);
    StepAdvances(cfg, n, step);
    SameLogsUnrepeated(n, Apply(cfg, n, step), c, !cfg.FanIn());
  }

  lemma DepsDistinct(plan: Plan, v: Name)
    requires Sound(plan)
    ensures Distinct(Deps(plan, v))
  {
    if Declared(plan, v) {
      var i :| 0 <= i < |plan.nodes| && plan.nodes[i] == Find(plan.nodes, v);
    }
  }

  /** The topic v is about to publish to has not seen v's result for this correlation ID. */
  lemma NotYetSent(plan: Plan, s: World, v: Name, a: nat, w: Name)
    requires Sound(plan) && LogsTraced(plan, s) && v in s.nodes && w in s.nodes && a < |s.nodes[v].attempts|
    requires IsWorker(plan, v) && v in Deps(plan, w)
    requires var x := s.nodes[v].attempts[a];
             && OneAttempt(s.nodes[v].attempts, x.cid)
             && |x.landed| < |Outs(plan, v)| && w == Outs(plan, v)[|x.landed|]
    ensures var x := s.nodes[v].attempts[a]; NotYetIn(s.nodes[w], Msg(x.cid, v, x.out), |Deps(plan, w)| <= 1)
  {
    var x, n := s.nodes[v].attempts[a], s.nodes[w];
    OutputsAreDependents(plan.nodes, v);
    DependentsExact(plan.nodes, v);
    forall q, j | 0 <= q < |n.lanes| && 0 <= j < |n.lanes[q].log| && n.lanes[q].log[j].cid == x.cid
      ensures n.lanes[q].log[j].source != v && |Deps(plan, w)| > 1
    {
      var m := n.lanes[q].log[j];
      assert Traced(plan, s, w, q, n.lanes[q].log[j]);
      forall b | 0 <= b < |s.nodes[v].attempts| ensures !Carries(plan, v, s.nodes[v].attempts[b], w, m) {
        assert s.nodes[v].attempts[b].cid == x.cid ==> b == a;
        assert forall k :: 0 <= k < |x.landed| ==> Outs(plan, v)[k] != w;
      }
      assert m.source in Deps(plan, w);
    }
  }

  lemma NotYetEntered(plan: Plan, s: World, v: Name, p: nat, m: Msg)
    requires LogsTraced(plan, s) && v in s.nodes && Allowed(plan, v, p, m)
    requires EntersOnce(plan, s.injected + [Injection(v, m)], m.cid)
    ensures NotYetIn(s.nodes[v], m, |Deps(plan, v)| <= 1)
  {
    var n := s.nodes[v];
    forall q, j | 0 <= q < |n.lanes| && 0 <= j < |n.lanes[q].log| && n.lanes[q].log[j].cid == m.cid
      ensures |Deps(plan, v)| > 1 && n.lanes[q].log[j].source != m.source
    {
      var seen := n.lanes[q].log[j];
      assert Traced(plan, s, v, q, n.lanes[q].log[j]);
      if Injection(v, seen) in s.injected {
        var i :| 0 <= i < |s.injected| && s.injected[i] == Injection(v, seen);
        var all := s.injected + [Injection(v, m)];
        assert all[i] == Injection(v, seen) && all[|s.injected|] == Injection(v, m);
      }
    }
  }

  // ---------- Every calm event keeps it ----------

  lemma QuietEventOnce(plan: Plan, s: World, v: Name, step: Step, c: Cid)
    requires Sound(plan) && NodesOk(plan, s) && AllOnce(plan, s, c) && Can(plan, s, Act(v, step)) && Calm(step)
             && !Lands(step)
    ensures AllOnce(plan, Do(plan, s, Act(v, step)), c)
  {
    DepsDistinct(plan, v);
    StepOnce(Cfg(plan, v), s.nodes[v], step, c);
  }

  lemma LandingOnce(plan: Plan, s: World, v: Name, n: Node, w: Name, p: nat, m: Msg, c: Cid)
    requires Sound(plan) && AllOnce(plan, s, c) && v in s.nodes && w in s.nodes && p < |s.nodes[v := n][w].lanes|
    requires NodeOnce(Cfg(plan, v), n, c) && Runner.Inv(Cfg(plan, w), s.nodes[v := n][w])
    requires CanDeliver(Cfg(plan, w), s.nodes[v := n][w], p, m)
    requires m.cid == c ==> NotYetIn(s.nodes[v := n][w], m, !Cfg(plan, w).FanIn())
    ensures AllOnce(plan, Landing(s, v, n, w, p, m), c)
  {
    var mid := s.nodes[v := n];
    assert NodeOnce(Cfg(plan, w), mid[w], c);
    DepsDistinct(plan, w);
    DeliverOnce(Cfg(plan, w), mid[w], p, m, c);
  }

  lemma LandEventOnce(plan: Plan, s: World, v: Name, step: Step, c: Cid)
    requires Sound(plan) && NodesOk(plan, s) && LogsTraced(plan, s) && AllOnce(plan, s, c)
    requires Can(plan, s, Act(v, step)) && Lands(step) && Calm(step)
    ensures AllOnce(plan, Do(plan, s, Act(v, step)), c)
  {
    var n, a, w, p, m := LandFacts(plan, s, v, step);
    NodeStep(plan, s, v, step);
    DepsDistinct(plan, v);
    StepOnce(Cfg(plan, v), s.nodes[v], step, c);
    LandingTarget(plan, s, v, n, w);
    if m.cid == c {
      assert NodeOnce(Cfg(plan, v), s.nodes[v], c);
      LandingIsNew(plan, s, v, n, a, w, m);
    }
    LandingOnce(plan, s, v, n, w, p, m, c);
  }

  lemma LandingIsNew(plan: Plan, s: World, v: Name, n: Node, a: nat, w: Name, m: Msg)
    requires Sound(plan) && LogsTraced(plan, s) && v in s.nodes && w in s.nodes && Advances(s.nodes[v], n, true, a)
    requires IsWorker(plan, v) && v in Deps(plan, w)
    requires var x := s.nodes[v].attempts[a];
             && |x.landed| < |Outs(plan, v)| && w == Outs(plan, v)[|x.landed|]
             && m == Msg(x.cid, v, x.out)
    requires OneAttempt(s.nodes[v].attempts, m.cid)
    ensures NotYetIn(s.nodes[v := n][w], m, !Cfg(plan, w).FanIn())
  {
    NotYetSent(plan, s, v, a, w);
  }

  lemma LandingTarget(plan: Plan, s: World, v: Name, n: Node, w: Name)
    requires NodesOk(plan, s) && v in s.nodes && Declared(plan, w) && Runner.Inv(Cfg(plan, v), n)
    ensures w in s.nodes && Runner.Inv(Cfg(plan, w), s.nodes[v := n][w]) && |s.nodes[v := n][w].lanes| == plan.lanes
  {
    assert v != w ==> Runner.Inv(Cfg(plan, w), s.nodes[w]);
  }

  lemma InjectEventOnce(plan: Plan, s: World, v: Name, p: nat, m: Msg, c: Cid)
    requires Sound(plan) && NodesOk(plan, s) && LogsTraced(plan, s) && AllOnce(plan, s, c)
             && Can(plan, s, Inject(v, p, m))
    requires EntersOnce(plan, s.injected + [Injection(v, m)], c)
    ensures AllOnce(plan, Do(plan, s, Inject(v, p, m)), c)
  {
    if m.cid == c {
      NotYetEntered(plan, s, v, p, m);
    }
    DepsDistinct(plan, v);
    DeliverOnce(Cfg(plan, v), s.nodes[v], p, m, c);
  }

  lemma EnteredOncePrefix(plan: Plan, a: seq<Injection>, b: seq<Injection>, c: Cid)
    requires a <= b && EntersOnce(plan, b, c)
    ensures EntersOnce(plan, a, c)
  {
    forall i, j | 0 <= i < j < |a| && a[i].target == a[j].target && a[i].m.cid == c && a[j].m.cid == c
      ensures Deps(plan, a[i].target) != [] && a[i].m.source != a[j].m.source
    {
      assert a[i] == b[i] && a[j] == b[j];
    }
  }

  lemma StartOnce(plan: Plan, c: Cid)
    requires Sound(plan)
    ensures AllOnce(plan, Start(plan), c)
  {
  }

  lemma {:induction false} CalmRunOnce(plan: Plan, states: seq<World>, events: seq<Event>, i: nat, c: Cid)
    requires Sound(plan) && CalmRun(plan, states, events) && i <= |events| && EntersOnce(plan, states[i].injected, c)
    ensures AllOnce(plan, states[i], c)
  {
    if i == 0 {
      StartOnce(plan, c);
    } else {
      RunIsLater(plan, states, events, i - 1);
      EnteredOncePrefix(plan, states[i - 1].injected, states[i].injected, c);
      CalmRunOnce(plan, states, events, i - 1, c);
      RunEventOnce(plan, states, events, i - 1, c);
    }
  }

  lemma RunEventOnce(plan: Plan, states: seq<World>, events: seq<Event>, i: nat, c: Cid)
    requires Sound(plan) && CalmRun(plan, states, events) && i < |events|
    requires AllOnce(plan, states[i], c) && EntersOnce(plan, states[i + 1].injected, c)
    ensures AllOnce(plan, states[i + 1], c)
  {
    WorldRunKeeps(plan, states, events, i);
    assert CalmEvent(events[i]);
    EventOnce(plan, states[i], events[i], c);
  }

  lemma EventOnce(plan: Plan, s: World, e: Event, c: Cid)
    requires Sound(plan) && NodesOk(plan, s) && LogsTraced(plan, s) && AllOnce(plan, s, c)
    requires Can(plan, s, e) && CalmEvent(e) && EntersOnce(plan, Do(plan, s, e).injected, c)
    ensures AllOnce(plan, Do(plan, s, e), c)
  {
    match e
    case Inject(v, p, m) => InjectEventOnce(plan, s, v, p, m, c);
    case Act(v, step) =>
      if Lands(step) {
        LandEventOnce(plan, s, v, step, c);
      } else {
        QuietEventOnce(plan, s, v, step, c);
      }
  }

  // ---------- How many messages are consumed ----------

  /** The event takes a message for c off an input log. */
  ghost predicate Takes(s: World, e: Event, c: Cid) {
    && e.Act? && (e.step.Join? || e.step.PassThrough?) && e.v in s.nodes && CanTake(s.nodes[e.v], e.step.p)
    && var lane := s.nodes[e.v].lanes[e.step.p];
       lane.log[lane.marked].cid == c
  }

  ghost function MessageSteps(states: seq<World>, events: seq<Event>, c: Cid, i: nat): nat
    requires i <= |events| && |states| == |events| + 1
  {
    if i == 0 then 0
    else MessageSteps(states, events, c, i - 1) + if Takes(states[i - 1], events[i - 1], c) then 1 else 0
  }

  datatype Position = Position(v: Name, p: nat, i: nat)

  ghost predicate IsTaken(plan: Plan, s: World, c: Cid, x: Position) {
    && x.v in s.nodes && x.p < |s.nodes[x.v].lanes|
    && var lane := s.nodes[x.v].lanes[x.p];
       x.i < |lane.log| && x.i < Taken(Cfg(plan, x.v), lane) && lane.log[x.i].cid == c
  }

  ghost predicate TakesOneMore(cfg: Config, a: seq<Lane>, b: seq<Lane>, at: int) {
    |b| == |a| && forall q :: 0 <= q < |a| ==> Taken(cfg, b[q]) == Taken(cfg, a[q]) + if q == at then 1 else 0
  }

  predicate IsWorkerStep(step: Step) {
    step.RunAgent? || step.Land? || step.Finish? || step.Bury?
  }

  /** A goroutine past its join keeps the message it holds, or no message at all. */
  lemma WorkerTaken(cfg: Config, n: Node, step: Step)
    requires Enabled(cfg, n, step) && IsWorkerStep(step) && (step.Bury? ==> cfg.FanIn())
    ensures TakesOneMore(cfg, n.lanes, Apply(cfg, n, step).lanes, -1)
  {
  }

  lemma LaneTaken(cfg: Config, n: Node, step: Step)
    requires Enabled(cfg, n, step) && Calm(step) && !step.Deliver? && !IsWorkerStep(step)
    ensures TakesOneMore(cfg, n.lanes, Apply(cfg, n, step).lanes,
                         if step.Join? || step.PassThrough? then step.p else -1)
  {
  }

  lemma NodeTaken(cfg: Config, n: Node, step: Step)
    requires Runner.Inv(cfg, n) && Enabled(cfg, n, step) && Calm(step) && !step.Deliver?
    ensures TakesOneMore(cfg, n.lanes, Apply(cfg, n, step).lanes,
                         if step.Join? || step.PassThrough? then step.p else -1)
  {
    if IsWorkerStep(step) {
      if step.Bury? {
        OnlyFanInBuries(cfg, n, step.w);
      }
      WorkerTaken(cfg, n, step);
    } else {
      LaneTaken(cfg, n, step);
    }
  }

  /** Lanes keep their log prefix, and nothing taken is put back. */
  ghost predicate TakenLater(cfg: Config, a: Node, b: Node) {
    && |a.lanes| == |b.lanes|
    && forall q :: 0 <= q < |a.lanes| ==>
         a.lanes[q].log <= b.lanes[q].log && Taken(cfg, a.lanes[q]) <= Taken(cfg, b.lanes[q])
  }

  lemma StepTakenLater(cfg: Config, n: Node, step: Step)
    requires Runner.Inv(cfg, n) && Enabled(cfg, n, step) && Calm(step) && !step.Deliver?
    ensures TakenLater(cfg, n, Apply(cfg, n, step))
  {
    NodeTaken(cfg, n, step);
    StepAdvances(cfg, n, step);
  }

  lemma DeliverTakenLater(cfg: Config, a: Node, b: Node, p: nat, m: Msg)
    requires TakenLater(cfg, a, b) && p < |b.lanes|
    ensures TakenLater(cfg, a, DoDeliver(b, p, m))
  {
  }

  ghost predicate AllTakenLater(plan: Plan, s: World, t: World) {
    forall v :: v in s.nodes ==> v in t.nodes && TakenLater(Cfg(plan, v), s.nodes[v], t.nodes[v])
  }

  lemma LandTakenLater(plan: Plan, s: World, v: Name, n: Node, w: Name, p: nat, m: Msg)
    requires v in s.nodes && TakenLater(Cfg(plan, v), s.nodes[v], n)
    ensures AllTakenLater(plan, s, Landing(s, v, n, w, p, m))
  {
    var mid := s.nodes[v := n];
    if w in mid && p < |mid[w].lanes| {
      DeliverTakenLater(Cfg(plan, w), s.nodes[w], mid[w], p, m);
    }
  }

  lemma EventTakenLater(plan: Plan, s: World, e: Event)
    requires Sound(plan) && NodesOk(plan, s) && Can(plan, s, e) && CalmEvent(e)
    ensures AllTakenLater(plan, s, Do(plan, s, e))
  {
    match e
    case Inject(v, p, m) => DeliverTakenLater(Cfg(plan, v), s.nodes[v], s.nodes[v], p, m);
    case Act(v, step) =>
      StepTakenLater(Cfg(plan, v), s.nodes[v], step);
      if Lands(step) {
        var n, a, w, p, m := LandFacts(plan, s, v, step);
        LandTakenLater(plan, s, v, n, w, p, m);
      }
  }

  /** Taking a message adds one position that was not taken before. */
  lemma TakingIsNew(plan: Plan, s: World, e: Event, c: Cid) returns (x: Position)
    requires NodesOk(plan, s) && Can(plan, s, e) && Takes(s, e, c)
    ensures !IsTaken(plan, s, c, x) && IsTaken(plan, Do(plan, s, e), c, x)
  {
    x := Position(e.v, e.step.p, s.nodes[e.v].lanes[e.step.p].marked);
    NodeTaken(Cfg(plan, e.v), s.nodes[e.v], e.step);
    StepAdvances(Cfg(plan, e.v), s.nodes[e.v], e.step);
  }

  lemma StillTaken(plan: Plan, s: World, t: World, c: Cid, x: Position)
    requires IsTaken(plan, s, c, x) && x.v in t.nodes && TakenLater(Cfg(plan, x.v), s.nodes[x.v], t.nodes[x.v])
    ensures IsTaken(plan, t, c, x)
  {
    assert s.nodes[x.v].lanes[x.p].log[x.i] == t.nodes[x.v].lanes[x.p].log[x.i];
  }

  ghost predicate AllTaken(plan: Plan, s: World, c: Cid, taken: set<Position>) {
    forall x :: x in taken ==> IsTaken(plan, s, c, x)
  }

  lemma PositionsStay(plan: Plan, s: World, t: World, c: Cid, taken: set<Position>)
    requires AllTakenLater(plan, s, t) && AllTaken(plan, s, c, taken)
    ensures AllTaken(plan, t, c, taken)
  {
    forall x | x in taken ensures IsTaken(plan, t, c, x) {
      StillTaken(plan, s, t, c, x);
    }
  }

  lemma OneMorePosition(plan: Plan, s: World, t: World, c: Cid, before: set<Position>, x: Position)
    requires AllTaken(plan, s, c, before) && AllTaken(plan, t, c, before) && !IsTaken(plan, s, c, x)
             && IsTaken(plan, t, c, x)
    ensures AllTaken(plan, t, c, before + {x}) && |before + {x}| == |before| + 1
  {
    assert x !in before;
  }

  lemma StepPositions(plan: Plan, s: World, e: Event, c: Cid, before: set<Position>) returns (taken: set<Position>)
    requires Sound(plan) && NodesOk(plan, s) && Can(plan, s, e) && CalmEvent(e) && AllTaken(plan, s, c, before)
    ensures AllTaken(plan, Do(plan, s, e), c, taken) && |taken| == |before| + if Takes(s, e, c) then 1 else 0
  {
    var t := Do(plan, s, e);
    EventTakenLater(plan, s, e);
    PositionsStay(plan, s, t, c, before);
    taken := before;
    if Takes(s, e, c) {
      var x := TakingIsNew(plan, s, e, c);
      OneMorePosition(plan, s, t, c, before, x);
      taken := before + {x};
    }
  }

  lemma RunStepPositions(plan: Plan, states: seq<World>, events: seq<Event>, i: nat, c: Cid, before: set<Position>)
    returns (taken: set<Position>)
    requires Sound(plan) && CalmRun(plan, states, events) && i < |events| && AllTaken(plan, states[i], c, before)
    ensures AllTaken(plan, states[i + 1], c, taken)
    ensures |taken| == |before| + if Takes(states[i], events[i], c) then 1 else 0
  {
    WorldRunKeeps(plan, states, events, i);
    assert CalmEvent(events[i]);
    taken := StepPositions(plan, states[i], events[i], c, before);
  }

  lemma {:induction false} StepsArePositions(plan: Plan, states: seq<World>, events: seq<Event>, i: nat, c: Cid)
    returns (taken: set<Position>)
    requires Sound(plan) && CalmRun(plan, states, events) && i <= |events|
    ensures |taken| == MessageSteps(states, events, c, i) && AllTaken(plan, states[i], c, taken)
  {
    if i == 0 {
      taken := {};
    } else {
      var before := StepsArePositions(plan, states, events, i - 1, c);
      taken := RunStepPositions(plan, states, events, i - 1, c, before);
    }
  }

  /** The edges of the declared graph, as (dependent, dependency). */
  ghost function Edges(plan: Plan): set<(Name, Name)> {
    set v, u | v in Elements(Names(plan.nodes)) && u in Elements(Deps(plan, v)) :: (v, u)
  }

  /** The roots c entered at. */
  ghost function EnteredRoots(plan: Plan, s: World, c: Cid): set<Name> {
    set v | v in s.nodes && Deps(plan, v) == [] && EnteredAt(s.injected, v, c)
  }

  lemma {:induction false} InjectiveBound<A, B>(a: set<A>, b: set<B>, f: map<A, B>)
    requires forall x :: x in a ==> x in f && f[x] in b
    requires forall x, y :: x in a && y in a && f[x] == f[y] ==> x == y
    ensures |a| <= |b|
  {
    if a != {} {
      var x :| x in a;
      InjectiveBound(a - {x}, b - {f[x]}, f);
    }
  }

  ghost function KeyOf(plan: Plan, s: World, c: Cid, x: Position): (Name, Name)
    requires IsTaken(plan, s, c, x)
  {
    (x.v, if Deps(plan, x.v) == [] then "" else s.nodes[x.v].lanes[x.p].log[x.i].source)
  }

  ghost function RootPairs(roots: set<Name>): set<(Name, Name)> {
    set v | v in roots :: (v, "")
  }

  ghost function Keys(plan: Plan, s: World, c: Cid): set<(Name, Name)> {
    RootPairs(EnteredRoots(plan, s, c)) + Edges(plan)
  }

  lemma KeyIsKnown(plan: Plan, s: World, c: Cid, x: Position)
    requires Swarm.Inv(plan, s) && IsTaken(plan, s, c, x)
    ensures KeyOf(plan, s, c, x) in Keys(plan, s, c)
  {
    var m := s.nodes[x.v].lanes[x.p].log[x.i];
    assert Traced(plan, s, x.v, x.p, s.nodes[x.v].lanes[x.p].log[x.i]);
    if Deps(plan, x.v) == [] {
      assert EnteredAt(s.injected, x.v, c);
      assert x.v in EnteredRoots(plan, s, c);
    } else {
      assert x.v in Elements(Names(plan.nodes)) && m.source in Elements(Deps(plan, x.v));
    }
  }

  lemma KeyIsUnique(plan: Plan, s: World, c: Cid, x: Position, y: Position)
    requires LogsTraced(plan, s) && AllOnce(plan, s, c) && IsTaken(plan, s, c, x) && IsTaken(plan, s, c, y)
    requires KeyOf(plan, s, c, x) == KeyOf(plan, s, c, y)
    ensures x == y
  {
    var n := s.nodes[x.v];
    assert NodeOnce(Cfg(plan, x.v), n, c);
  }

  lemma {:induction false} PairsOf(roots: set<Name>)
    ensures |RootPairs(roots)| == |roots|
  {
    if roots != {} {
      var r :| r in roots;
      PairsOf(roots - {r});
      assert RootPairs(roots) == RootPairs(roots - {r}) + {(r, "")};
    }
  }

  lemma UnionBound<T>(a: set<T>, b: set<T>)
    ensures |a + b| <= |a| + |b|
  {
    SubsetCardinality(b - a, b);
    assert a + b == a + (b - a);
  }

  lemma KeysBound(plan: Plan, s: World, c: Cid)
    ensures |Keys(plan, s, c)| <= |EnteredRoots(plan, s, c)| + |Edges(plan)|
  {
    PairsOf(EnteredRoots(plan, s, c));
    UnionBound(RootPairs(EnteredRoots(plan, s, c)), Edges(plan));
  }

  lemma PositionsBound(plan: Plan, s: World, c: Cid, taken: set<Position>)
    requires Swarm.Inv(plan, s) && AllOnce(plan, s, c) && AllTaken(plan, s, c, taken)
    ensures |taken| <= |EnteredRoots(plan, s, c)| + |Edges(plan)|
  {
    KeysFit(plan, s, c, taken);
    InjectiveBound(taken, Keys(plan, s, c), KeyMap(plan, s, c, taken));
    KeysBound(plan, s, c);
  }

  ghost function KeyMap(plan: Plan, s: World, c: Cid, taken: set<Position>): map<Position, (Name, Name)>
    requires AllTaken(plan, s, c, taken)
  {
    map x | x in taken :: KeyOf(plan, s, c, x)
  }

  lemma KeysFit(plan: Plan, s: World, c: Cid, taken: set<Position>)
    requires Swarm.Inv(plan, s) && AllOnce(plan, s, c) && AllTaken(plan, s, c, taken)
    ensures var f := KeyMap(plan, s, c, taken);
            && (forall x :: x in taken ==> x in f && f[x] in Keys(plan, s, c))
            && forall x, y :: x in taken && y in taken && f[x] == f[y] ==> x == y
  {
    var f := KeyMap(plan, s, c, taken);
    forall x | x in taken ensures x in f && f[x] in Keys(plan, s, c) {
      KeyIsKnown(plan, s, c, x);
    }
    forall x, y | x in taken && y in taken && f[x] == f[y] ensures x == y {
      KeyIsUnique(plan, s, c, x, y);
    }
  }

  // ---------- The theorems ----------

  /**
   In every failure-free run in which c enters once: no node ever makes two attempts on c, and at most as
   many messages for c are consumed as roots it entered plus edges of the graph.
   */
  lemma AtMostOnce(plan: Plan, states: seq<World>, events: seq<Event>, c: Cid)
    requires Sound(plan) && CalmRun(plan, states, events) && EntersOnce(plan, states[|events|].injected, c)
    ensures forall v, a, b ::
              v in states[|events|].nodes && 0 <= a < b < |states[|events|].nodes[v].attempts|
              ==> states[|events|].nodes[v].attempts[a].cid != c || states[|events|].nodes[v].attempts[b].cid != c
    ensures MessageSteps(states, events, c, |events|) <= |EnteredRoots(plan, states[|events|], c)| + |Edges(plan)|
  {
    var s := states[|events|];
    CalmRunOnce(plan, states, events, |events|, c);
    WorldRunKeeps(plan, states, events, |events|);
    var taken := StepsArePositions(plan, states, events, |events|, c);
    PositionsBound(plan, s, c, taken);
    forall v, a, b | v in s.nodes && 0 <= a < b < |s.nodes[v].attempts|
      ensures s.nodes[v].attempts[a].cid != c || s.nodes[v].attempts[b].cid != c
    {
      assert NodeOnce(Cfg(plan, v), s.nodes[v], c);
    }
  }

  /** v made exactly one attempt on c, and it reached every output topic. */
  ghost predicate FiredOnce(plan: Plan, s: World, v: Name, c: Cid) {
    && v in s.nodes
    && exists a ::
         && 0 <= a < |s.nodes[v].attempts| && s.nodes[v].attempts[a].cid == c
         && Complete(Cfg(plan, v), s.nodes[v].attempts[a])
         && forall b :: 0 <= b < |s.nodes[v].attempts| && s.nodes[v].attempts[b].cid == c ==> b == a
  }

  /** At rest after a failure-free run, the nodes that fired are the least closure, each exactly once. */
  lemma ExactlyOnceAtRest(plan: Plan, states: seq<World>, events: seq<Event>, c: Cid, fired: set<Name>)
    requires Sound(plan) && CalmRun(plan, states, events) && EntersOnce(plan, states[|events|].injected, c)
    requires Quiescent(plan, states[|events|]) && IsLeast(plan, states[|events|].injected, fired, c)
    ensures forall v :: v in fired ==> FiredOnce(plan, states[|events|], v, c)
    ensures forall v, a :: v in states[|events|].nodes && 0 <= a < |states[|events|].nodes[v].attempts| ==>
              states[|events|].nodes[v].attempts[a].cid == c ==> v in fired
  {
    var s := states[|events|];
    AtMostOnce(plan, states, events, c);
    CompletedIsLeastClosure(plan, states, events, c);
    NothingElseCompletes(plan, states, events, fired, c);
    assert fired <= CompletedSet(plan, s, c);
    forall v | v in fired ensures FiredOnce(plan, s, v, c) {
      assert v in CompletedSet(plan, s, c);
      var a :| 0 <= a < |s.nodes[v].attempts| && s.nodes[v].attempts[a].cid == c
        && Complete(Cfg(plan, v), s.nodes[v].attempts[a]);
    }
  }
}
