/**
 Failure-free runs end. Every step a runner takes of its own accord is paid for by a message it took, messages
 are bounded by what entered and the edges, and a swarm that is not at rest can always move.
 */
module Settling {
  import opened Types
  import opened Runner
  import opened Wiring
  import opened Swarm
  import opened SwarmTheorems
  import opened DataFlow
  import opened ExactlyOnce
  import opened ExactlyOnceSwarm

  // ---------- How much work a runner has in hand ----------

  function Unsent(cfg: Config, attempts: seq<Attempt>, a: nat): nat {
    var landed := if a < |attempts| then |attempts[a].landed| else 0;
    if landed <= cfg.outputs then cfg.outputs - landed else 0
  }

  /** The steps a goroutine has left, at most, before it is idle again. */
  function StepsLeft(cfg: Config, attempts: seq<Attempt>, pc: Pc): nat {
    match pc
    case Idle => 0
    case Recorded(_) => cfg.outputs + 4
    case Ready(_, _, _) => cfg.outputs + 3
    case Publishing(a) => Unsent(cfg, attempts, a) + 2
    case Tombstoning(_) => 1
    case Unmarked(_) => 1
  }

  function LanesLeft(cfg: Config, attempts: seq<Attempt>, lanes: seq<Lane>): nat {
    if lanes == [] then 0
    else LanesLeft(cfg, attempts, lanes[..|lanes| - 1]) + StepsLeft(cfg, attempts, lanes[|lanes| - 1].pc)
  }

  /** Starting up takes two steps when there is nothing to recover. */
  function PhaseLeft(phase: Phase): nat {
    match phase
    case Down => 2
    case Recovering(_) => 1
    case Running => 0
  }

  function NodeLeft(cfg: Config, n: Node): nat {
    PhaseLeft(n.phase) + LanesLeft(cfg, n.attempts, n.lanes)
  }

  predicate IsTake(step: Step) {
    step.Join? || step.PassThrough?
  }

  /** Lane `at` may cost more than before, the others no more than before. */
  predicate LaneCost(cfg: Config, a: seq<Attempt>, x: seq<Lane>, b: seq<Attempt>, y: seq<Lane>, at: int, cost: int) {
    && |x| == |y|
    && forall q :: 0 <= q < |x| ==>
         StepsLeft(cfg, b, y[q].pc) <= StepsLeft(cfg, a, x[q].pc) + if q == at then cost else 0
  }

  lemma {:induction false} LanesPay(cfg: Config, a: seq<Attempt>, x: seq<Lane>, b: seq<Attempt>, y: seq<Lane>,
                                    at: int, cost: int)
    requires LaneCost(cfg, a, x, b, y, at, cost)
    ensures LanesLeft(cfg, b, y) <= LanesLeft(cfg, a, x) + if 0 <= at < |x| then cost else 0
  {
    if x != [] {
      var n := |x| - 1;
      LanesPay(cfg, a, x[..n], b, y[..n], at, cost);
      assert StepsLeft(cfg, b, y[n].pc) <= StepsLeft(cfg, a, x[n].pc) + if n == at then cost else 0;
    }
  }

  /** Taking a message opens the work for it; every later step of the goroutine uses some of that up. */
  lemma LaneStepPays(cfg: Config, n: Node, step: Step)
    requires Enabled(cfg, n, step)
    requires IsTake(step) || step.MarkJoined? || step.MarkPublished?
    ensures var cost := if IsTake(step) then cfg.outputs + 4 else -1;
            LaneCost(cfg, n.attempts, n.lanes, Apply(cfg, n, step).attempts, Apply(cfg, n, step).lanes, step.p, cost)
    ensures Apply(cfg, n, step).phase == n.phase && step.p < |n.lanes|
  {
  }

  lemma RunAgentPays(cfg: Config, n: Node, p: nat, out: Data)
    requires CanRunAgent(n, Consumer(p), out)
    ensures var t := DoRunAgent(n, Consumer(p), out);
            t.phase == n.phase && p < |n.lanes| && LaneCost(cfg, n.attempts, n.lanes, t.attempts, t.lanes, p, -1)
  {
    var t := DoRunAgent(n, Consumer(p), out);
    forall q | 0 <= q < |n.lanes|
      ensures StepsLeft(cfg, t.attempts, t.lanes[q].pc) <=
              StepsLeft(cfg, n.attempts, n.lanes[q].pc) + if q == p then -1 else 0
    {
      assert q != p ==> t.lanes[q] == n.lanes[q];
    }
  }

  lemma LandPays(cfg: Config, n: Node, p: nat)
    requires CanLand(cfg, n, Consumer(p))
    ensures var t := DoLand(n, Consumer(p));
            t.phase == n.phase && p < |n.lanes| && LaneCost(cfg, n.attempts, n.lanes, t.attempts, t.lanes, p, -1)
  {
  }

  lemma FinishPays(cfg: Config, n: Node, p: nat)
    requires CanFinish(cfg, n, Consumer(p))
    ensures var t := DoFinish(cfg, n, Consumer(p));
            t.phase == n.phase && p < |n.lanes| && LaneCost(cfg, n.attempts, n.lanes, t.attempts, t.lanes, p, -1)
  {
  }

  lemma BuryPays(cfg: Config, n: Node, p: nat, landed: bool)
    requires CanBury(n, Consumer(p))
    ensures var t := DoBury(n, Consumer(p), landed);
            t.phase == n.phase && p < |n.lanes| && LaneCost(cfg, n.attempts, n.lanes, t.attempts, t.lanes, p, -1)
  {
  }

  lemma WorkerStepPays(cfg: Config, n: Node, step: Step)
    requires Enabled(cfg, n, step) && IsWorkerStep(step) && step.w.Consumer?
    ensures var t := Apply(cfg, n, step);
            && t.phase == n.phase && step.w.p < |n.lanes|
            && LaneCost(cfg, n.attempts, n.lanes, t.attempts, t.lanes, step.w.p, -1)
  {
    match step
    case RunAgent(w, out) => RunAgentPays(cfg, n, w.p, out);
    case Land(w) => LandPays(cfg, n, w.p);
    case Finish(w) => FinishPays(cfg, n, w.p);
    case Bury(w, landed) => BuryPays(cfg, n, w.p, landed);
  }

  /** Start-up, commits and the cleaner leave the goroutines where they stand. */
  lemma OtherStepPays(cfg: Config, n: Node, step: Step)
    requires Untouched(n) && Enabled(cfg, n, step) && Calm(step) && !IsWorkerStep(step)
    requires !IsTake(step) && !step.MarkJoined? && !step.MarkPublished?
    ensures var t := Apply(cfg, n, step);
            && LaneCost(cfg, n.attempts, n.lanes, t.attempts, t.lanes, -1, 0)
            && PhaseLeft(t.phase) + (if Useful(step) then 1 else 0) <= PhaseLeft(n.phase)
  {
  }

  lemma WorkerIsConsumer(cfg: Config, n: Node, step: Step)
    requires Runner.Inv(cfg, n) && Untouched(n) && Enabled(cfg, n, step) && IsWorkerStep(step)
    ensures step.w.Consumer?
  {
    if n.phase.Recovering? {
      NothingToRecover(cfg, n);
    }
  }

  /** A calm step is paid for by the work in hand, or by the message it takes. */
  lemma StepPays(cfg: Config, n: Node, step: Step)
    requires Runner.Inv(cfg, n) && Untouched(n) && Enabled(cfg, n, step) && Calm(step)
    ensures NodeLeft(cfg, Apply(cfg, n, step)) + (if Useful(step) then 1 else 0) <=
            NodeLeft(cfg, n) + if IsTake(step) then cfg.outputs + 5 else 0
  {
    var t := Apply(cfg, n, step);
    if IsWorkerStep(step) {
      WorkerIsConsumer(cfg, n, step);
      WorkerStepPays(cfg, n, step);
      LanesPay(cfg, n.attempts, n.lanes, t.attempts, t.lanes, step.w.p, -1);
    } else if IsTake(step) || step.MarkJoined? || step.MarkPublished? {
      LaneStepPays(cfg, n, step);
      LanesPay(cfg, n.attempts, n.lanes, t.attempts, t.lanes, step.p, if IsTake(step) then cfg.outputs + 4 else -1);
    } else {
      OtherStepPays(cfg, n, step);
      LanesPay(cfg, n.attempts, n.lanes, t.attempts, t.lanes, -1, 0);
    }
  }

  lemma DeliverPays(cfg: Config, n: Node, p: nat, m: Msg)
    requires p < |n.lanes|
    ensures NodeLeft(cfg, DoDeliver(n, p, m)) <= NodeLeft(cfg, n)
    ensures Untouched(n) ==> Untouched(DoDeliver(n, p, m))
  {
    var t := DoDeliver(n, p, m);
    LanesPay(cfg, n.attempts, n.lanes, t.attempts, t.lanes, -1, 0);
  }

  // ---------- The whole swarm ----------

  ghost predicate AllUntouched(s: World) {
    forall v :: v in s.nodes ==> Untouched(s.nodes[v])
  }

  ghost function NodeLeftAt(plan: Plan, s: World, v: Name): nat {
    if v in s.nodes then NodeLeft(Cfg(plan, v), s.nodes[v]) else 0
  }

  ghost function WorldLeft(plan: Plan, s: World, names: seq<Name>): nat {
    if names == [] then 0
    else WorldLeft(plan, s, names[..|names| - 1]) + NodeLeftAt(plan, s, names[|names| - 1])
  }

  /** Node v may have more work than before, the others have no more than before. */
  ghost predicate NodeCost(plan: Plan, s: World, t: World, v: Name, cost: int) {
    forall x :: NodeLeftAt(plan, t, x) <= NodeLeftAt(plan, s, x) + if x == v then cost else 0
  }

  lemma {:induction false} WorldPays(plan: Plan, s: World, t: World, names: seq<Name>, v: Name, cost: int)
    requires Distinct(names) && NodeCost(plan, s, t, v, cost)
    ensures WorldLeft(plan, t, names) <= WorldLeft(plan, s, names) + if v in names then cost else 0
  {
    if names != [] {
      var init, last := names[..|names| - 1], names[|names| - 1];
      WorldPays(plan, s, t, init, v, cost);
      assert names == init + [last];
      assert last !in init;
    }
  }

  ghost predicate OutputsWithin(plan: Plan, most: nat) {
    forall v :: |Outs(plan, v)| <= most
  }

  ghost predicate TakesOne(e: Event) {
    e.Act? && IsTake(e.step)
  }

  /** A step a runner takes of its own accord; commits, the cleaner and outside messages are not counted. */
  ghost predicate Works(e: Event) {
    e.Act? && Useful(e.step)
  }

  lemma LandCosts(plan: Plan, s: World, v: Name, n: Node, w: Name, p: nat, m: Msg, cost: int)
    requires v in s.nodes && NodeLeft(Cfg(plan, v), n) <= NodeLeft(Cfg(plan, v), s.nodes[v]) + cost
    requires AllUntouched(s) && Untouched(n)
    ensures NodeCost(plan, s, Landing(s, v, n, w, p, m), v, cost) && AllUntouched(Landing(s, v, n, w, p, m))
  {
    var mid := s.nodes[v := n];
    if w in mid && p < |mid[w].lanes| {
      DeliverPays(Cfg(plan, w), mid[w], p, m);
    }
  }

  /** What a step adds to the work in hand, less the step itself. */
  ghost function Cost(step: Step, most: nat): int {
    (if IsTake(step) then most + 5 else 0) - (if Useful(step) then 1 else 0)
  }

  lemma NodePays(plan: Plan, s: World, v: Name, step: Step, most: nat)
    requires NodesOk(plan, s) && AllUntouched(s) && OutputsWithin(plan, most)
    requires Can(plan, s, Act(v, step)) && Calm(step)
    ensures var n := Apply(Cfg(plan, v), s.nodes[v], step);
            NodeLeft(Cfg(plan, v), n) <= NodeLeft(Cfg(plan, v), s.nodes[v]) + Cost(step, most) && Untouched(n)
  {
    assert Runner.Inv(Cfg(plan, v), s.nodes[v]);
    StepPays(Cfg(plan, v), s.nodes[v], step);
    CalmIsUntouched(Cfg(plan, v), s.nodes[v], step);
    assert Cfg(plan, v).outputs <= most;
  }

  lemma ActPays(plan: Plan, s: World, v: Name, step: Step, most: nat)
    requires Sound(plan) && NodesOk(plan, s) && AllUntouched(s) && OutputsWithin(plan, most)
    requires Can(plan, s, Act(v, step)) && Calm(step)
    ensures NodeCost(plan, s, Do(plan, s, Act(v, step)), v, Cost(step, most))
    ensures AllUntouched(Do(plan, s, Act(v, step)))
  {
    NodePays(plan, s, v, step, most);
    if Lands(step) {
      var n, a, w, p, m := LandFacts(plan, s, v, step);
      LandCosts(plan, s, v, n, w, p, m, Cost(step, most));
    } else {
      QuietCosts(plan, s, v, Apply(Cfg(plan, v), s.nodes[v], step), Cost(step, most));
    }
  }

  lemma QuietCosts(plan: Plan, s: World, v: Name, n: Node, cost: int)
    requires v in s.nodes && NodeLeft(Cfg(plan, v), n) <= NodeLeft(Cfg(plan, v), s.nodes[v]) + cost
    requires AllUntouched(s) && Untouched(n)
    ensures NodeCost(plan, s, s.(nodes := s.nodes[v := n]), v, cost) && AllUntouched(s.(nodes := s.nodes[v := n]))
  {
  }

  lemma InjectPays(plan: Plan, s: World, v: Name, p: nat, m: Msg)
    requires Sound(plan) && AllUntouched(s) && v in s.nodes && p < |s.nodes[v].lanes| && Allowed(plan, v, p, m)
    ensures var t := Do(plan, s, Inject(v, p, m));
            AllUntouched(t) && WorldLeft(plan, t, Names(plan.nodes)) <= WorldLeft(plan, s, Names(plan.nodes))
  {
    DeliverPays(Cfg(plan, v), s.nodes[v], p, m);
    WorldPays(plan, s, Do(plan, s, Inject(v, p, m)), Names(plan.nodes), v, 0);
  }

  /** Every calm event is paid for. */
  lemma EventPays(plan: Plan, s: World, e: Event, most: nat)
    requires Sound(plan) && NodesOk(plan, s) && AllUntouched(s) && OutputsWithin(plan, most)
    requires Can(plan, s, e) && CalmEvent(e)
    ensures AllUntouched(Do(plan, s, e))
    ensures WorldLeft(plan, Do(plan, s, e), Names(plan.nodes)) + (if Works(e) then 1 else 0) <=
            WorldLeft(plan, s, Names(plan.nodes)) + if TakesOne(e) then most + 5 else 0
  {
    var t := Do(plan, s, e);
    match e
    case Inject(v, p, m) => InjectPays(plan, s, v, p, m);
    case Act(v, step) =>
      ActPays(plan, s, v, step, most);
      WorldPays(plan, s, t, Names(plan.nodes), v, Cost(step, most));
  }

  // ---------- Counting over a run ----------

  ghost function WorkSteps(events: seq<Event>, i: nat): nat
    requires i <= |events|
  {
    if i == 0 then 0 else WorkSteps(events, i - 1) + if Works(events[i - 1]) then 1 else 0
  }

  ghost function TakeSteps(events: seq<Event>, i: nat): nat
    requires i <= |events|
  {
    if i == 0 then 0 else TakeSteps(events, i - 1) + if TakesOne(events[i - 1]) then 1 else 0
  }

  lemma {:induction false} LanesLeftIdle(cfg: Config, attempts: seq<Attempt>, lanes: seq<Lane>)
    requires forall p :: 0 <= p < |lanes| ==> lanes[p].pc == Idle
    ensures LanesLeft(cfg, attempts, lanes) == 0
  {
    if lanes != [] {
      LanesLeftIdle(cfg, attempts, lanes[..|lanes| - 1]);
    }
  }

  lemma {:induction false} StartLeft(plan: Plan, names: seq<Name>)
    ensures WorldLeft(plan, Start(plan), names) <= 2 * |names|
  {
    if names != [] {
      var v := names[|names| - 1];
      StartLeft(plan, names[..|names| - 1]);
      if v in Start(plan).nodes {
        LanesLeftIdle(Cfg(plan, v), [], Runner.Init(Cfg(plan, v)).lanes);
      }
    }
  }

  ghost predicate Paid(plan: Plan, s: World, events: seq<Event>, i: nat, most: nat)
    requires i <= |events|
  {
    WorkSteps(events, i) + WorldLeft(plan, s, Names(plan.nodes)) <= 2 * |plan.nodes| + (most + 5) * TakeSteps(events, i)
  }

  lemma PaidNext(plan: Plan, s: World, t: World, events: seq<Event>, i: nat, most: nat)
    requires i < |events| && Paid(plan, s, events, i, most)
    requires WorldLeft(plan, t, Names(plan.nodes)) + (if Works(events[i]) then 1 else 0) <=
             WorldLeft(plan, s, Names(plan.nodes)) + if TakesOne(events[i]) then most + 5 else 0
    ensures Paid(plan, t, events, i + 1, most)
  {
    var takes := TakeSteps(events, i);
    assert (most + 5) * (takes + 1) == (most + 5) * takes + (most + 5);
  }

  lemma StartUntouched(plan: Plan)
    ensures AllUntouched(Start(plan))
  {
  }

  lemma StartIsPaid(plan: Plan, events: seq<Event>, most: nat)
    ensures AllUntouched(Start(plan)) && Paid(plan, Start(plan), events, 0, most)
  {
    StartUntouched(plan);
    StartLeft(plan, Names(plan.nodes));
  }

  /** At every point of a calm run, the steps taken and the work left are paid for by the messages taken. */
  lemma {:induction false} CalmRunPays(plan: Plan, states: seq<World>, events: seq<Event>, i: nat, most: nat)
    requires Sound(plan) && CalmRun(plan, states, events) && i <= |events| && OutputsWithin(plan, most)
    ensures AllUntouched(states[i]) && Paid(plan, states[i], events, i, most)
  {
    if i == 0 {
      StartIsPaid(plan, events, most);
    } else {
      CalmRunPays(plan, states, events, i - 1, most);
      CalmStepPays(plan, states, events, i - 1, most);
    }
  }

  lemma CalmStepPays(plan: Plan, states: seq<World>, events: seq<Event>, i: nat, most: nat)
    requires Sound(plan) && CalmRun(plan, states, events) && i < |events| && OutputsWithin(plan, most)
    requires AllUntouched(states[i]) && Paid(plan, states[i], events, i, most)
    ensures AllUntouched(states[i + 1]) && Paid(plan, states[i + 1], events, i + 1, most)
  {
    WorldRunKeeps(plan, states, events, i);
    assert CalmEvent(events[i]);
    EventPays(plan, states[i], events[i], most);
    PaidNext(plan, states[i], states[i + 1], events, i, most);
  }

  // ---------- All correlation IDs together ----------

  ghost function InjectedCids(injected: seq<Injection>): set<Cid> {
    set i | 0 <= i < |injected| :: injected[i].m.cid
  }

  ghost predicate TakesSome(s: World, e: Event, cids: set<Cid>) {
    exists c :: c in cids && Takes(s, e, c)
  }

  ghost function TakesOf(states: seq<World>, events: seq<Event>, cids: set<Cid>, i: nat): nat
    requires i <= |events| && |states| == |events| + 1
  {
    if i == 0 then 0
    else TakesOf(states, events, cids, i - 1) + if TakesSome(states[i - 1], events[i - 1], cids) then 1 else 0
  }

  lemma {:induction false} TakesOfOneMore(states: seq<World>, events: seq<Event>, cids: set<Cid>, c: Cid, i: nat)
    requires i <= |events| && |states| == |events| + 1 && c !in cids
    ensures TakesOf(states, events, cids + {c}, i) ==
            TakesOf(states, events, cids, i) + MessageSteps(states, events, c, i)
  {
    if i > 0 {
      TakesOfOneMore(states, events, cids, c, i - 1);
      assert TakesSome(states[i - 1], events[i - 1], cids + {c}) <==>
             TakesSome(states[i - 1], events[i - 1], cids) || Takes(states[i - 1], events[i - 1], c);
    }
  }

  lemma {:induction false} TakesOfNone(states: seq<World>, events: seq<Event>, i: nat)
    requires i <= |events| && |states| == |events| + 1
    ensures TakesOf(states, events, {}, i) == 0
  {
    if i > 0 {
      TakesOfNone(states, events, i - 1);
    }
  }

  lemma {:induction false} InjectedGrows(plan: Plan, states: seq<World>, events: seq<Event>, i: nat, j: nat)
    requires Sound(plan) && WorldRun(plan, states, events) && i <= j <= |events|
    ensures states[i].injected <= states[j].injected
  {
    if i < j {
      InjectedGrows(plan, states, events, i, j - 1);
      RunIsLater(plan, states, events, j - 1);
    }
  }

  /** A message that is taken carries an ID that entered. */
  lemma TakenCidEntered(plan: Plan, states: seq<World>, events: seq<Event>, i: nat)
    requires Sound(plan) && WorldRun(plan, states, events) && i < |events| && TakesOne(events[i])
    ensures TakesSome(states[i], events[i], InjectedCids(states[|events|].injected))
  {
    var s, e := states[i], events[i];
    var lane := s.nodes[e.v].lanes[e.step.p];
    var m := lane.log[lane.marked];
    assert WorldRun(plan, states[..i + 1], events[..i]);
    CorrelationIdsAreConserved(plan, states[..i + 1], events[..i], e.v, e.step.p, m);
    var j :| j in s.injected && j.m.cid == m.cid;
    InjectedGrows(plan, states, events, i, |events|);
    MemberOfPrefix(j, s.injected, states[|events|].injected);
    assert Takes(s, e, m.cid);
  }

  lemma {:induction false} TakesCount(states: seq<World>, events: seq<Event>, cids: set<Cid>, i: nat)
    requires i <= |events| && |states| == |events| + 1
    requires forall k :: 0 <= k < i ==> TakesOne(events[k]) ==> TakesSome(states[k], events[k], cids)
    ensures TakeSteps(events, i) <= TakesOf(states, events, cids, i)
  {
    if i > 0 {
      TakesCount(states, events, cids, i - 1);
    }
  }

  lemma TakesAreCounted(plan: Plan, states: seq<World>, events: seq<Event>)
    requires Sound(plan) && WorldRun(plan, states, events)
    ensures TakeSteps(events, |events|) <=
            TakesOf(states, events, InjectedCids(states[|events|].injected), |events|)
  {
    var cids := InjectedCids(states[|events|].injected);
    forall k | 0 <= k < |events| && TakesOne(events[k]) ensures TakesSome(states[k], events[k], cids) {
      TakenCidEntered(plan, states, events, k);
    }
    TakesCount(states, events, cids, |events|);
  }

  /** The roots entered, by correlation ID. */
  ghost function RootsOf(plan: Plan, s: World, cids: set<Cid>): set<(Cid, Name)> {
    set c, v | c in cids && v in EnteredRoots(plan, s, c) :: (c, v)
  }

  ghost function RootsOfOne(plan: Plan, s: World, c: Cid): set<(Cid, Name)> {
    set v | v in EnteredRoots(plan, s, c) :: (c, v)
  }

  lemma {:induction false} TaggedSize(c: Cid, names: set<Name>)
    ensures |set v | v in names :: (c, v)| == |names|
  {
    if names != {} {
      var n :| n in names;
      TaggedSize(c, names - {n});
      assert (set v | v in names :: (c, v)) == (set v | v in names - {n} :: (c, v)) + {(c, n)};
    }
  }

  lemma RootsOfOneMore(plan: Plan, s: World, cids: set<Cid>, c: Cid)
    requires c !in cids
    ensures |RootsOf(plan, s, cids + {c})| == |RootsOf(plan, s, cids)| + |EnteredRoots(plan, s, c)|
  {
    TaggedSize(c, EnteredRoots(plan, s, c));
    assert RootsOf(plan, s, cids + {c}) == RootsOf(plan, s, cids) + RootsOfOne(plan, s, c);
    assert RootsOf(plan, s, cids) !! RootsOfOne(plan, s, c);
  }

  ghost function Entries(injected: seq<Injection>): set<(Cid, Name)> {
    set i | 0 <= i < |injected| :: (injected[i].m.cid, injected[i].target)
  }

  lemma {:induction false} EntriesSize(injected: seq<Injection>)
    ensures |Entries(injected)| <= |injected|
  {
    if injected == [] {
      assert Entries(injected) == {};
    } else {
      var n := |injected| - 1;
      var init, last := injected[..n], (injected[n].m.cid, injected[n].target);
      EntriesSize(init);
      assert Entries(injected) == Entries(init) + {last} by {
        assert forall i :: 0 <= i < n ==> init[i] == injected[i];
      }
      UnionBound(Entries(init), {last});
    }
  }

  lemma RootsAreEntries(plan: Plan, s: World, cids: set<Cid>)
    ensures |RootsOf(plan, s, cids)| <= |s.injected|
  {
    forall x | x in RootsOf(plan, s, cids) ensures x in Entries(s.injected) {
      var m: Msg :| m.cid == x.0 && Injection(x.1, m) in s.injected;
      var i :| 0 <= i < |s.injected| && s.injected[i] == Injection(x.1, m);
    }
    SubsetCardinality(RootsOf(plan, s, cids), Entries(s.injected));
    EntriesSize(s.injected);
  }

  ghost predicate AllEnterOnce(plan: Plan, injected: seq<Injection>) {
    forall c :: EntersOnce(plan, injected, c)
  }

  ghost predicate TakesWithin(plan: Plan, states: seq<World>, events: seq<Event>, cids: set<Cid>)
    requires |states| == |events| + 1
  {
    TakesOf(states, events, cids, |events|) <= |RootsOf(plan, states[|events|], cids)| + |cids| * |Edges(plan)|
  }

  lemma TakesBoundNext(plan: Plan, states: seq<World>, events: seq<Event>, rest: set<Cid>, c: Cid)
    requires |states| == |events| + 1 && c !in rest && TakesWithin(plan, states, events, rest)
    requires MessageSteps(states, events, c, |events|) <= |EnteredRoots(plan, states[|events|], c)| + |Edges(plan)|
    ensures TakesWithin(plan, states, events, rest + {c})
  {
    TakesOfOneMore(states, events, rest, c, |events|);
    RootsOfOneMore(plan, states[|events|], rest, c);
    assert (|rest| + 1) * |Edges(plan)| == |rest| * |Edges(plan)| + |Edges(plan)|;
  }

  lemma {:induction false} TakesBound(plan: Plan, states: seq<World>, events: seq<Event>, cids: set<Cid>)
    requires Sound(plan) && CalmRun(plan, states, events) && AllEnterOnce(plan, states[|events|].injected)
    ensures TakesWithin(plan, states, events, cids)
    decreases |cids|
  {
    if cids == {} {
      TakesOfNone(states, events, |events|);
    } else {
      var c :| c in cids;
      TakesBound(plan, states, events, cids - {c});
      assert EntersOnce(plan, states[|events|].injected, c);
      AtMostOnce(plan, states, events, c);
      TakesBoundNext(plan, states, events, cids - {c}, c);
      assert cids - {c} + {c} == cids;
    }
  }

  // ---------- The theorems ----------

  /** Messages that can be taken: what entered, and for each correlation ID one over every edge. */
  ghost function MostTakes(plan: Plan, injected: seq<Injection>): nat {
    |injected| + |InjectedCids(injected)| * |Edges(plan)|
  }

  ghost function MostSteps(plan: Plan, injected: seq<Injection>, most: nat): nat {
    2 * |plan.nodes| + (most + 5) * MostTakes(plan, injected)
  }

  /**
   Every failure-free interleaving ends. If each correlation ID enters each root once, the messages taken are at
   most the injections and, for each ID, the edges; and all the steps the runners take are at most two per node to
   start up and, for each message taken, five and one for every output topic.
   */
  lemma CalmRunEnds(plan: Plan, states: seq<World>, events: seq<Event>, most: nat)
    requires Sound(plan) && CalmRun(plan, states, events) && OutputsWithin(plan, most)
    requires AllEnterOnce(plan, states[|events|].injected)
    ensures TakeSteps(events, |events|) <= MostTakes(plan, states[|events|].injected)
    ensures WorkSteps(events, |events|) <= MostSteps(plan, states[|events|].injected, most)
  {
    var s := states[|events|];
    var cids := InjectedCids(s.injected);
    CalmRunPays(plan, states, events, |events|, most);
    TakesAreCounted(plan, states, events);
    TakesBound(plan, states, events, cids);
    RootsAreEntries(plan, s, cids);
    TimesGrows(most + 5, TakeSteps(events, |events|), MostTakes(plan, s.injected));
  }

  lemma TimesGrows(k: nat, a: nat, b: nat)
    requires a <= b
    ensures k * a <= k * b
  {
  }

  /** Whatever happened before, crashes included, a swarm that is not at rest has a runner that can move. */
  lemma SwarmCanMove(plan: Plan, s: World) returns (e: Event)
    requires NodesOk(plan, s) && !Quiescent(plan, s)
    ensures Can(plan, s, e) && Works(e)
  {
    var v :| v in s.nodes && IsWorker(plan, v) && !AtRest(s.nodes[v]);
    assert Runner.Inv(Cfg(plan, v), s.nodes[v]);
    var step := NeverStuck(Cfg(plan, v), s.nodes[v]);
    e := Act(v, step);
  }

  ghost predicate Linked(plan: Plan, s: World, e: Event, t: World) {
    Can(plan, s, e) && t == Do(plan, s, e) && CalmEvent(e)
  }

  ghost predicate AllLinked(plan: Plan, states: seq<World>, events: seq<Event>) {
    |states| == |events| + 1 && forall i :: 0 <= i < |events| ==> Linked(plan, states[i], events[i], states[i + 1])
  }

  lemma CalmIsLinked(plan: Plan, states: seq<World>, events: seq<Event>)
    ensures CalmRun(plan, states, events) <==> AllLinked(plan, states, events) && states[0] == Start(plan)
  {
    if CalmRun(plan, states, events) {
      forall i | 0 <= i < |events| ensures Linked(plan, states[i], events[i], states[i + 1]) {
        assert CalmEvent(events[i]);
      }
    }
    if AllLinked(plan, states, events) && states[0] == Start(plan) {
      forall i | 0 <= i < |events|
        ensures CalmEvent(events[i]) && Can(plan, states[i], events[i])
                && states[i + 1] == Do(plan, states[i], events[i])
      {
        assert Linked(plan, states[i], events[i], states[i + 1]);
      }
    }
  }

  lemma OneMoreLink(plan: Plan, states: seq<World>, events: seq<Event>, e: Event, t: World)
    requires AllLinked(plan, states, events) && Linked(plan, states[|events|], e, t)
    ensures AllLinked(plan, states + [t], events + [e])
  {
    var moreStates, moreEvents := states + [t], events + [e];
    forall i | 0 <= i < |moreEvents| ensures Linked(plan, moreStates[i], moreEvents[i], moreStates[i + 1]) {
      assert i < |events| ==> Linked(plan, states[i], events[i], states[i + 1]);
    }
  }

  lemma LongerRun(plan: Plan, states: seq<World>, events: seq<Event>, e: Event)
    requires CalmRun(plan, states, events) && Can(plan, states[|events|], e) && CalmEvent(e)
    ensures CalmRun(plan, states + [Do(plan, states[|events|], e)], events + [e])
  {
    var t := Do(plan, states[|events|], e);
    CalmIsLinked(plan, states, events);
    OneMoreLink(plan, states, events, e, t);
    CalmIsLinked(plan, states + [t], events + [e]);
  }

  lemma OneMoreEvent(plan: Plan, states: seq<World>, events: seq<Event>, e: Event)
    requires CalmRun(plan, states, events) && Can(plan, states[|events|], e) && Works(e)
    ensures CalmRun(plan, states + [Do(plan, states[|events|], e)], events + [e])
    ensures Do(plan, states[|events|], e).injected == states[|events|].injected
    ensures WorkSteps(events + [e], |events| + 1) == WorkSteps(events, |events|) + 1
  {
    LongerRun(plan, states, events, e);
    WorkStepsPrefix(events, e, |events|);
  }

  lemma {:induction false} WorkStepsPrefix(events: seq<Event>, e: Event, i: nat)
    requires i <= |events|
    ensures WorkSteps(events + [e], i) == WorkSteps(events, i)
  {
    if i > 0 {
      WorkStepsPrefix(events, e, i - 1);
    }
  }

  /** Every failure-free run comes to rest once the runners have had their turns and nothing more enters. */
  lemma {:induction false} CalmRunSettles(plan: Plan, states: seq<World>, events: seq<Event>, most: nat)
    returns (allStates: seq<World>, allEvents: seq<Event>)
    requires Sound(plan) && CalmRun(plan, states, events) && OutputsWithin(plan, most)
    requires AllEnterOnce(plan, states[|events|].injected)
    ensures states <= allStates && events <= allEvents && CalmRun(plan, allStates, allEvents)
    ensures Quiescent(plan, allStates[|allEvents|]) && allStates[|allEvents|].injected == states[|events|].injected
    decreases MostSteps(plan, states[|events|].injected, most) - WorkSteps(events, |events|)
  {
    var s := states[|events|];
    WorldRunKeeps(plan, states, events, |events|);
    if Quiescent(plan, s) {
      allStates, allEvents := states, events;
    } else {
      var e := SwarmCanMove(plan, s);
      OneMoreEvent(plan, states, events, e);
      CalmRunEnds(plan, states + [Do(plan, s, e)], events + [e], most);
      allStates, allEvents := CalmRunSettles(plan, states + [Do(plan, s, e)], events + [e], most);
    }
  }

  /** No runner can move of its own accord. */
  ghost predicate Exhausted(plan: Plan, s: World) {
    forall e :: Works(e) ==> !Can(plan, s, e)
  }

  /** A failure-free run in which no runner can move any more has fired exactly the least closure, each node once. */
  lemma ExhaustedRunIsExact(plan: Plan, states: seq<World>, events: seq<Event>, c: Cid, fired: set<Name>)
    requires Sound(plan) && CalmRun(plan, states, events) && EntersOnce(plan, states[|events|].injected, c)
    requires Exhausted(plan, states[|events|]) && IsLeast(plan, states[|events|].injected, fired, c)
    ensures Quiescent(plan, states[|events|])
    ensures forall v :: v in fired ==> FiredOnce(plan, states[|events|], v, c)
    ensures forall v, a :: v in states[|events|].nodes && 0 <= a < |states[|events|].nodes[v].attempts| ==>
              states[|events|].nodes[v].attempts[a].cid == c ==> v in fired
  {
    WorldRunKeeps(plan, states, events, |events|);
    if !Quiescent(plan, states[|events|]) {
      var e := SwarmCanMove(plan, states[|events|]);
    }
    ExactlyOnceAtRest(plan, states, events, c, fired);
  }
}
