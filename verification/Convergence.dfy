/**
 Whatever has gone wrong, once nothing more goes wrong the swarm settles. Every message, attempt and join that is
 waiting for recovery is given a worth that covers all the work it can still cause; work only ever uses worth up.
 */
module Convergence {
  import opened Types
  import opened Changelog
  import opened Runner
  import opened RunnerProofs
  import opened Wiring
  import opened Swarm
  import opened SwarmTheorems
  import opened ExactlyOnce
  import opened Settling
  import opened Levels

  /** Nothing more fails; goroutines that lost their partition earlier may still finish publishing. */
  predicate Steady(step: Step) {
    !step.Crash? && !step.Rewind? && !step.StrayRun?
  }

  /** A step that does some of the work there is. */
  predicate Progresses(step: Step) {
    !step.Deliver? && !step.Commit? && !step.Compact?
  }

  // ---------- What a runner still has to do ----------

  /** What a message for c may cost, if one output for c is worth u(c). */
  function MessageCost(cfg: Config, u: Cid -> nat, c: Cid): nat {
    5 + cfg.outputs * u(c)
  }

  function LogCost(cfg: Config, u: Cid -> nat, log: seq<Msg>, from: nat): nat {
    if |log| <= from then 0
    else LogCost(cfg, u, log[..|log| - 1], from) + MessageCost(cfg, u, log[|log| - 1].cid)
  }

  function HandCost(cfg: Config, u: Cid -> nat, pc: Pc): nat {
    match pc
    case Idle => 0
    case Recorded(c) => 4 + cfg.outputs * u(c)
    case Ready(c, _, _) => 3 + cfg.outputs * u(c)
    case Publishing(_) => 2
    case Tombstoning(_) => 1
    case Unmarked(_) => 1
  }

  function LaneCostOf(cfg: Config, u: Cid -> nat, lane: Lane): nat {
    LogCost(cfg, u, lane.log, Taken(cfg, lane)) + HandCost(cfg, u, lane.pc)
  }

  function LanesCost(cfg: Config, u: Cid -> nat, lanes: seq<Lane>): nat {
    if lanes == [] then 0
    else LanesCost(cfg, u, lanes[..|lanes| - 1]) + LaneCostOf(cfg, u, lanes[|lanes| - 1])
  }

  function AttemptCost(cfg: Config, u: Cid -> nat, t: Attempt): nat {
    (if |t.landed| <= cfg.outputs then cfg.outputs - |t.landed| else 0) * u(t.cid)
  }

  function AttemptsCost(cfg: Config, u: Cid -> nat, attempts: seq<Attempt>): nat {
    if attempts == [] then 0
    else AttemptsCost(cfg, u, attempts[..|attempts| - 1]) + AttemptCost(cfg, u, attempts[|attempts| - 1])
  }

  /** The joins that recovery has to complete, apart from one it is at. */
  function Full(cfg: Config, joins: Joins, but: Option<Cid>): set<Cid> {
    set c | c in joins && |joins[c]| >= |cfg.deps| && Some(c) != but
  }

  function PhaseCost(cfg: Config, u: Cid -> nat, n: Node, big: nat): nat {
    match n.phase
    case Down => 2 + big * |Full(cfg, if cfg.FanIn() then Replay(n.changelog) else map[], None)|
    case Recovering(pc) => 1 + HandCost(cfg, u, pc) + big * |Full(cfg, n.joins, Subject(n.attempts, pc))|
    case Running => 0
  }

  function NodeCostOf(cfg: Config, u: Cid -> nat, n: Node, big: nat): nat {
    PhaseCost(cfg, u, n, big) + LanesCost(cfg, u, n.lanes) + AttemptsCost(cfg, u, n.attempts)
  }

  // ---------- Sums ----------

  lemma {:induction false} LogCostTake(cfg: Config, u: Cid -> nat, log: seq<Msg>, from: nat)
    requires from < |log|
    ensures LogCost(cfg, u, log, from) == LogCost(cfg, u, log, from + 1) + MessageCost(cfg, u, log[from].cid)
  {
    if from < |log| - 1 {
      LogCostTake(cfg, u, log[..|log| - 1], from);
    }
  }

  lemma {:induction false} LanesCostUpdate(cfg: Config, u: Cid -> nat, lanes: seq<Lane>, p: nat, lane: Lane)
    requires p < |lanes|
    ensures LanesCost(cfg, u, lanes[p := lane]) + LaneCostOf(cfg, u, lanes[p]) ==
            LanesCost(cfg, u, lanes) + LaneCostOf(cfg, u, lane)
  {
    var n := |lanes| - 1;
    if p < n {
      LanesCostUpdate(cfg, u, lanes[..n], p, lane);
      assert lanes[p := lane][..n] == lanes[..n][p := lane];
    } else {
      assert lanes[p := lane][..n] == lanes[..n];
    }
  }

  lemma {:induction false} AttemptsCostUpdate(cfg: Config, u: Cid -> nat, attempts: seq<Attempt>, a: nat, t: Attempt)
    requires a < |attempts|
    ensures AttemptsCost(cfg, u, attempts[a := t]) + AttemptCost(cfg, u, attempts[a]) ==
            AttemptsCost(cfg, u, attempts) + AttemptCost(cfg, u, t)
  {
    var n := |attempts| - 1;
    if a < n {
      AttemptsCostUpdate(cfg, u, attempts[..n], a, t);
      assert attempts[a := t][..n] == attempts[..n][a := t];
    } else {
      assert attempts[a := t][..n] == attempts[..n];
    }
  }

  lemma AttemptsCostAppend(cfg: Config, u: Cid -> nat, attempts: seq<Attempt>, t: Attempt)
    ensures AttemptsCost(cfg, u, attempts + [t]) == AttemptsCost(cfg, u, attempts) + AttemptCost(cfg, u, t)
  {
    assert (attempts + [t])[..|attempts|] == attempts;
  }

  // ---------- Every steady step pays for itself ----------

  /** The step at lane p, which leaves memory, changelog and attempts alone or irrelevant, costs less than before. */
  lemma LanePays(cfg: Config, u: Cid -> nat, n: Node, t: Node, p: nat, big: nat)
    requires n.phase.Running? && t.phase == n.phase && t.attempts == n.attempts
    requires p < |n.lanes| && p < |t.lanes| && t.lanes == n.lanes[p := t.lanes[p]]
    requires LaneCostOf(cfg, u, t.lanes[p]) < LaneCostOf(cfg, u, n.lanes[p])
    ensures NodeCostOf(cfg, u, t, big) < NodeCostOf(cfg, u, n, big)
  {
    LanesCostUpdate(cfg, u, n.lanes, p, t.lanes[p]);
  }

  lemma JoinCosts(cfg: Config, u: Cid -> nat, n: Node, p: nat, big: nat)
    requires cfg.FanIn() && CanTake(n, p)
    ensures NodeCostOf(cfg, u, DoJoin(n, p), big) < NodeCostOf(cfg, u, n, big)
  {
    LogCostTake(cfg, u, n.lanes[p].log, n.lanes[p].marked);
    LanePays(cfg, u, n, DoJoin(n, p), p, big);
  }

  lemma PassThroughCosts(cfg: Config, u: Cid -> nat, n: Node, p: nat, big: nat)
    requires !cfg.FanIn() && CanTake(n, p)
    ensures NodeCostOf(cfg, u, DoPassThrough(n, p), big) < NodeCostOf(cfg, u, n, big)
  {
    LogCostTake(cfg, u, n.lanes[p].log, n.lanes[p].marked);
    LanePays(cfg, u, n, DoPassThrough(n, p), p, big);
  }

  lemma MarkJoinedCosts(cfg: Config, u: Cid -> nat, n: Node, p: nat, input: Data, big: nat)
    requires cfg.FanIn() && CanMarkJoined(cfg, n, p, input)
    ensures NodeCostOf(cfg, u, DoMarkJoined(cfg, n, p, input), big) < NodeCostOf(cfg, u, n, big)
  {
    LanePays(cfg, u, n, DoMarkJoined(cfg, n, p, input), p, big);
  }

  lemma MarkPublishedCosts(cfg: Config, u: Cid -> nat, n: Node, p: nat, big: nat)
    requires !cfg.FanIn() && CanMarkPublished(n, p)
    ensures NodeCostOf(cfg, u, DoMarkPublished(n, p), big) < NodeCostOf(cfg, u, n, big)
  {
    LanePays(cfg, u, n, DoMarkPublished(n, p), p, big);
  }

  /** A worker moves on from one place to another. */
  lemma WorkerCosts(cfg: Config, u: Cid -> nat, n: Node, t: Node, w: Worker, big: nat)
    requires Live(n, w) && t.lanes == WithPc(n, w, PcOfAfter(t, w)).lanes
    requires t.phase == WithPc(n, w, PcOfAfter(t, w)).phase
    requires w.Recovery? ==>
               Full(cfg, t.joins, Subject(t.attempts, PcOfAfter(t, w))) ==
               Full(cfg, n.joins, Subject(n.attempts, PcOf(n, w)))
    requires w.Consumer? ==>
               Taken(cfg, n.lanes[w.p].(pc := PcOfAfter(t, w))) == Taken(cfg, n.lanes[w.p])
    requires HandCost(cfg, u, PcOfAfter(t, w)) + AttemptsCost(cfg, u, t.attempts) <
             HandCost(cfg, u, PcOf(n, w)) + AttemptsCost(cfg, u, n.attempts)
    ensures NodeCostOf(cfg, u, t, big) < NodeCostOf(cfg, u, n, big)
  {
    if w.Consumer? {
      LanesCostUpdate(cfg, u, n.lanes, w.p, t.lanes[w.p]);
    }
  }

  function PcOfAfter(t: Node, w: Worker): Pc {
    if Live(t, w) then PcOf(t, w) else Idle
  }

  lemma RunAgentCosts(cfg: Config, u: Cid -> nat, n: Node, w: Worker, out: Data, big: nat)
    requires CanRunAgent(n, w, out)
    ensures NodeCostOf(cfg, u, DoRunAgent(n, w, out), big) < NodeCostOf(cfg, u, n, big)
  {
    var t := DoRunAgent(n, w, out);
    AttemptsCostAppend(cfg, u, n.attempts, t.attempts[|n.attempts|]);
    assert t.attempts == n.attempts + [t.attempts[|n.attempts|]];
    WorkerCosts(cfg, u, n, t, w, big);
  }

  lemma FinishCosts(cfg: Config, u: Cid -> nat, n: Node, w: Worker, big: nat)
    requires CanFinish(cfg, n, w) && (cfg.FanIn() || w.Consumer?)
    ensures NodeCostOf(cfg, u, DoFinish(cfg, n, w), big) < NodeCostOf(cfg, u, n, big)
  {
    var c := n.attempts[PcOf(n, w).a].cid;
    var t := DoFinish(cfg, n, w);
    assert Subject(n.attempts, PcOf(n, w)) == Some(c);
    FullWithout(cfg, n.joins, c);
    WorkerCosts(cfg, u, n, t, w, big);
  }

  lemma FullWithout(cfg: Config, joins: Joins, c: Cid)
    ensures Full(cfg, joins - {c}, Some(c)) == Full(cfg, joins, Some(c))
  {
  }

  lemma BuryCosts(cfg: Config, u: Cid -> nat, n: Node, w: Worker, landed: bool, big: nat)
    requires cfg.FanIn() && CanBury(n, w) && n.attempts[PcOf(n, w).a].cid !in n.joins
    ensures NodeCostOf(cfg, u, DoBury(n, w, landed), big) < NodeCostOf(cfg, u, n, big)
  {
    WorkerCosts(cfg, u, n, DoBury(n, w, landed), w, big);
  }

  /** An output that lands gives up its whole worth. */
  lemma LandCostsWorth(cfg: Config, u: Cid -> nat, n: Node, a: nat, big: nat)
    requires a < |n.attempts| && |n.attempts[a].landed| < cfg.outputs
    ensures NodeCostOf(cfg, u, LandAttempt(n, a), big) + u(n.attempts[a].cid) == NodeCostOf(cfg, u, n, big)
  {
    var t := LandAttempt(n, a).attempts[a];
    var left := cfg.outputs - |t.landed|;
    AttemptsCostUpdate(cfg, u, n.attempts, a, t);
    assert (left + 1) * u(t.cid) == left * u(t.cid) + u(t.cid);
  }

  lemma RestartCosts(cfg: Config, u: Cid -> nat, n: Node, big: nat)
    requires n.phase.Down?
    ensures NodeCostOf(cfg, u, DoRestart(cfg, n), big) < NodeCostOf(cfg, u, n, big)
  {
  }

  lemma RecoverCosts(cfg: Config, u: Cid -> nat, n: Node, c: Cid, input: Data, big: nat)
    requires CanRecover(cfg, n, c, input) && big >= MessageCost(cfg, u, c)
    ensures NodeCostOf(cfg, u, DoRecover(n, c, input), big) < NodeCostOf(cfg, u, n, big)
  {
    FullLessOne(cfg, n.joins, c);
    OneLessTimes(big, |Full(cfg, n.joins, None)|, |Full(cfg, n.joins, Some(c))|);
  }

  lemma FullLessOne(cfg: Config, joins: Joins, c: Cid)
    requires c in joins && |joins[c]| >= |cfg.deps|
    ensures |Full(cfg, joins, None)| == |Full(cfg, joins, Some(c))| + 1
  {
    assert Full(cfg, joins, None) == Full(cfg, joins, Some(c)) + {c};
  }

  lemma OneLessTimes(big: nat, a: nat, b: nat)
    requires a == b + 1
    ensures big * a == big * b + big
  {
  }

  lemma StartCosts(cfg: Config, u: Cid -> nat, n: Node, big: nat)
    requires CanStart(cfg, n)
    ensures NodeCostOf(cfg, u, DoStart(n), big) < NodeCostOf(cfg, u, n, big)
  {
  }

  lemma CommitCosts(cfg: Config, u: Cid -> nat, n: Node, p: nat, big: nat)
    requires Live(n, Consumer(p))
    ensures NodeCostOf(cfg, u, DoCommit(n, p), big) == NodeCostOf(cfg, u, n, big)
  {
    LanesCostUpdate(cfg, u, n.lanes, p, DoCommit(n, p).lanes[p]);
  }

  lemma CompactCosts(cfg: Config, u: Cid -> nat, n: Node, i: nat, big: nat)
    requires Readable(n.changelog) && Droppable(n.changelog, i)
    ensures NodeCostOf(cfg, u, DoCompact(n, i), big) == NodeCostOf(cfg, u, n, big)
  {
    CompactionStep(n.changelog, i);
  }

  lemma BuryHolds(cfg: Config, n: Node, w: Worker)
    requires Runner.Inv(cfg, n) && CanBury(n, w)
    ensures cfg.FanIn() && n.attempts[PcOf(n, w).a].cid !in n.joins
  {
    OnlyFanInBuries(cfg, n, w);
    assert PcOk(cfg, n.lanes, n.joins, Replay(n.changelog), n.attempts, PcOf(n, w));
  }

  lemma OnlyFanInRecovers(cfg: Config, n: Node, w: Worker)
    requires Runner.Inv(cfg, n) && Live(n, w) && !PcOf(n, w).Idle?
    ensures cfg.FanIn() || w.Consumer?
  {
  }

  /** Every steady step but a publish uses up some of the work, and commits and the cleaner add none. */
  lemma SteadyStepCosts(cfg: Config, u: Cid -> nat, n: Node, step: Step, big: nat)
    requires Runner.Inv(cfg, n) && Enabled(cfg, n, step) && Steady(step) && !step.Deliver? && !Lands(step)
    requires forall c :: big >= MessageCost(cfg, u, c)
    ensures NodeCostOf(cfg, u, Apply(cfg, n, step), big) + (if Progresses(step) then 1 else 0) <=
            NodeCostOf(cfg, u, n, big)
  {
    match step
    case Join(p) => JoinCosts(cfg, u, n, p, big);
    case PassThrough(p) => PassThroughCosts(cfg, u, n, p, big);
    case MarkJoined(p, input) => MarkJoinedCosts(cfg, u, n, p, input, big);
    case RunAgent(w, out) => RunAgentCosts(cfg, u, n, w, out, big);
    case Finish(w) =>
      OnlyFanInRecovers(cfg, n, w);
      FinishCosts(cfg, u, n, w, big);
    case Bury(w, landed) =>
      BuryHolds(cfg, n, w);
      BuryCosts(cfg, u, n, w, landed, big);
    case MarkPublished(p) => MarkPublishedCosts(cfg, u, n, p, big);
    case Commit(p) => CommitCosts(cfg, u, n, p, big);
    case Restart => RestartCosts(cfg, u, n, big);
    case Recover(c, input) => RecoverCosts(cfg, u, n, c, input, big);
    case StartConsuming => StartCosts(cfg, u, n, big);
    case Compact(i) => CompactCosts(cfg, u, n, i, big);
  }

  lemma DeliverCosts(cfg: Config, u: Cid -> nat, n: Node, p: nat, m: Msg, big: nat)
    requires p < |n.lanes|
    ensures NodeCostOf(cfg, u, DoDeliver(n, p, m), big) <= NodeCostOf(cfg, u, n, big) + MessageCost(cfg, u, m.cid)
  {
    var lane := n.lanes[p];
    assert (lane.log + [m])[..|lane.log|] == lane.log;
    LanesCostUpdate(cfg, u, n.lanes, p, DoDeliver(n, p, m).lanes[p]);
  }

  // ---------- What an output is worth ----------

  /** What a message can cause with h levels left below it, if no node has more than `most` outputs. */
  function Weight(most: nat, h: nat): nat {
    if h == 0 then 5 else 5 + most * (1 + Weight(most, h - 1))
  }

  lemma {:induction false} WeightGrows(most: nat, a: nat, b: nat)
    requires a <= b
    ensures Weight(most, a) <= Weight(most, b)
  {
    if a < b {
      if a > 0 {
        WeightGrows(most, a - 1, b - 1);
        TimesGrows(most, 1 + Weight(most, a - 1), 1 + Weight(most, b - 1));
      }
    }
  }

  /** A node that c never reaches publishes nothing for c; otherwise worth falls as the level rises. */
  ghost function Worth(plan: Plan, injected: seq<Injection>, most: nat, v: Name, c: Cid): nat {
    var level := Level(plan, injected, c, v);
    if v in Reach(plan, injected, c) && level <= |plan.nodes| then 1 + Weight(most, |plan.nodes| - level) else 0
  }

  ghost function WorthAt(plan: Plan, injected: seq<Injection>, most: nat, v: Name): Cid -> nat {
    (c: Cid) => Worth(plan, injected, most, v, c)
  }

  ghost function Big(plan: Plan, most: nat): nat {
    Weight(most, |plan.nodes| + 1)
  }

  lemma MessageWithin(plan: Plan, injected: seq<Injection>, most: nat, v: Name, c: Cid)
    requires OutputsWithin(plan, most)
    ensures MessageCost(Cfg(plan, v), WorthAt(plan, injected, most, v), c) <= Big(plan, most)
  {
    var n, worth := |plan.nodes|, Worth(plan, injected, most, v, c);
    var level := Level(plan, injected, c, v);
    if v in Reach(plan, injected, c) && level <= n {
      WeightGrows(most, n - level, n);
    }
    assert worth <= 1 + Weight(most, n);
    Products(Cfg(plan, v).outputs, most, worth, 1 + Weight(most, n));
  }

  lemma Products(a: nat, b: nat, x: nat, y: nat)
    requires a <= b && x <= y
    ensures a * x <= b * y
  {
    TimesGrows(a, x, y);
    assert a * y <= b * y;
  }

  /** The message a publish delivers costs less than what the publish gives up. */
  lemma EdgeLosesWorth(plan: Plan, injected: seq<Injection>, most: nat, v: Name, w: Name, c: Cid)
    requires OutputsWithin(plan, most) && IsWorker(plan, v) && v in Deps(plan, w) && v in Reach(plan, injected, c)
    ensures MessageCost(Cfg(plan, w), WorthAt(plan, injected, most, w), c) < Worth(plan, injected, most, v, c)
  {
    var n := |plan.nodes|;
    var here, there := Level(plan, injected, c, v), Level(plan, injected, c, w);
    MissingBound(plan, injected, c, v, n);
    LevelRises(plan, injected, c, v, w);
    if w in Reach(plan, injected, c) {
      MissingBound(plan, injected, c, w, n);
      Products(Cfg(plan, w).outputs, most, 1 + Weight(most, n - there), 1 + Weight(most, n - there));
      assert Weight(most, n - there + 1) == 5 + most * (1 + Weight(most, n - there));
      WeightGrows(most, n - there + 1, n - here);
    } else {
      WeightGrows(most, 0, n - here);
    }
  }

  // ---------- The whole swarm ----------

  ghost function CostAt(plan: Plan, injected: seq<Injection>, most: nat, s: World, v: Name): nat {
    if v in s.nodes then NodeCostOf(Cfg(plan, v), WorthAt(plan, injected, most, v), s.nodes[v], Big(plan, most)) else 0
  }

  ghost function CostOver(plan: Plan, injected: seq<Injection>, most: nat, s: World, names: seq<Name>): nat {
    if names == [] then 0
    else CostOver(plan, injected, most, s, names[..|names| - 1]) + CostAt(plan, injected, most, s, names[|names| - 1])
  }

  /** All the work the swarm can still do by itself. */
  ghost function WorkLeft(plan: Plan, s: World, most: nat): nat {
    CostOver(plan, s.injected, most, s, Names(plan.nodes))
  }

  /** v gives up `less`, w gains `more`, the others cost no more than before. */
  ghost predicate Shifts(plan: Plan, injected: seq<Injection>, most: nat, s: World, t: World, v: Name, less: int,
                         w: Name, more: int)
  {
    forall x ::
      CostAt(plan, injected, most, t, x) <=
      CostAt(plan, injected, most, s, x) - (if x == v then less else 0) + if x == w then more else 0
  }

  lemma {:induction false} ShiftSum(plan: Plan, injected: seq<Injection>, most: nat, s: World, t: World, v: Name,
                                    less: int, w: Name, more: int, names: seq<Name>)
    requires Distinct(names) && Shifts(plan, injected, most, s, t, v, less, w, more)
    ensures CostOver(plan, injected, most, t, names) <=
            CostOver(plan, injected, most, s, names)
            - (if v in names then less else 0) + if w in names then more else 0
  {
    if names != [] {
      var init, last := names[..|names| - 1], names[|names| - 1];
      ShiftSum(plan, injected, most, s, t, v, less, w, more, init);
      assert names == init + [last];
      assert last !in init;
    }
  }

  /** Every attempt on c is by a node that c reaches. */
  ghost predicate AllReached(plan: Plan, s: World) {
    forall c :: Within(s, Reach(plan, s.injected, c), c)
  }

  lemma RunIsReached(plan: Plan, states: seq<World>, events: seq<Event>, i: nat)
    requires Sound(plan) && WorldRun(plan, states, events) && i <= |events|
    ensures AllReached(plan, states[i])
  {
    forall c ensures Within(states[i], Reach(plan, states[i].injected, c), c) {
      ReachIsLeast(plan, states[i].injected, c);
      RunStaysWithin(plan, states, events, i, states[i].injected, Reach(plan, states[i].injected, c), c);
    }
  }

  lemma NodeUses(plan: Plan, s: World, v: Name, step: Step, most: nat)
    requires NodesOk(plan, s) && OutputsWithin(plan, most)
    requires Can(plan, s, Act(v, step)) && Steady(step) && !Lands(step)
    ensures var u := WorthAt(plan, s.injected, most, v);
            NodeCostOf(Cfg(plan, v), u, Apply(Cfg(plan, v), s.nodes[v], step), Big(plan, most)) +
            (if Progresses(step) then 1 else 0) <= NodeCostOf(Cfg(plan, v), u, s.nodes[v], Big(plan, most))
  {
    var u := WorthAt(plan, s.injected, most, v);
    assert Runner.Inv(Cfg(plan, v), s.nodes[v]);
    forall c ensures Big(plan, most) >= MessageCost(Cfg(plan, v), u, c) {
      MessageWithin(plan, s.injected, most, v, c);
    }
    SteadyStepCosts(Cfg(plan, v), u, s.nodes[v], step, Big(plan, most));
  }

  lemma UpdateShifts(plan: Plan, s: World, v: Name, n: Node, less: int, most: nat)
    requires v in s.nodes
    requires var u := WorthAt(plan, s.injected, most, v);
             NodeCostOf(Cfg(plan, v), u, n, Big(plan, most)) + less <=
             NodeCostOf(Cfg(plan, v), u, s.nodes[v], Big(plan, most))
    ensures Shifts(plan, s.injected, most, s, s.(nodes := s.nodes[v := n]), v, less, v, 0)
  {
  }

  lemma QuietShifts(plan: Plan, s: World, v: Name, step: Step, most: nat)
    requires NodesOk(plan, s) && OutputsWithin(plan, most)
    requires Can(plan, s, Act(v, step)) && Steady(step) && !Lands(step)
    ensures Shifts(plan, s.injected, most, s, Do(plan, s, Act(v, step)), v, if Progresses(step) then 1 else 0, v, 0)
  {
    NodeUses(plan, s, v, step, most);
    UpdateShifts(plan, s, v, Apply(Cfg(plan, v), s.nodes[v], step), if Progresses(step) then 1 else 0, most);
  }

  lemma LandShifts(plan: Plan, s: World, v: Name, n: Node, a: nat, w: Name, p: nat, m: Msg, most: nat)
    requires v in s.nodes && w in s.nodes && a < |s.nodes[v].attempts| && p < |s.nodes[v := n][w].lanes|
    requires n == LandAttempt(s.nodes[v], a) && |s.nodes[v].attempts[a].landed| < Cfg(plan, v).outputs
    requires m.cid == s.nodes[v].attempts[a].cid
    ensures Shifts(plan, s.injected, most, s, Landing(s, v, n, w, p, m), v, Worth(plan, s.injected, most, v, m.cid),
                   w, MessageCost(Cfg(plan, w), WorthAt(plan, s.injected, most, w), m.cid))
  {
    var mid := s.nodes[v := n];
    LandCostsWorth(Cfg(plan, v), WorthAt(plan, s.injected, most, v), s.nodes[v], a, Big(plan, most));
    DeliverCosts(Cfg(plan, w), WorthAt(plan, s.injected, most, w), mid[w], p, m, Big(plan, most));
  }

  lemma LandUses(plan: Plan, s: World, v: Name, step: Step, most: nat)
    requires Sound(plan) && NodesOk(plan, s) && AllReached(plan, s) && OutputsWithin(plan, most)
    requires Can(plan, s, Act(v, step)) && Lands(step)
    ensures WorkLeft(plan, Do(plan, s, Act(v, step)), most) < WorkLeft(plan, s, most)
  {
    var n, a, w, p, m := LandFacts(plan, s, v, step);
    var t := Landing(s, v, n, w, p, m);
    NodesMatch(plan, s);
    assert Within(s, Reach(plan, s.injected, m.cid), m.cid);
    LandingIs(plan, s, v, step, n, a);
    LandShifts(plan, s, v, n, a, w, p, m, most);
    EdgeLosesWorth(plan, s.injected, most, v, w, m.cid);
    NamesAreUnique(plan);
    ShiftSum(plan, s.injected, most, s, t, v, Worth(plan, s.injected, most, v, m.cid),
             w, MessageCost(Cfg(plan, w), WorthAt(plan, s.injected, most, w), m.cid), Names(plan.nodes));
  }

  lemma LandingIs(plan: Plan, s: World, v: Name, step: Step, n: Node, a: nat)
    requires Can(plan, s, Act(v, step)) && Lands(step) && n == Apply(Cfg(plan, v), s.nodes[v], step)
    requires Advances(s.nodes[v], n, true, a)
    ensures n == LandAttempt(s.nodes[v], a) && |s.nodes[v].attempts[a].landed| < Cfg(plan, v).outputs
  {
    var b := LandedBy(s.nodes[v], step);
    assert n.attempts[b].landed != s.nodes[v].attempts[b].landed;
    assert a == b;
  }

  lemma NamesAreUnique(plan: Plan)
    requires Sound(plan)
    ensures Distinct(Names(plan.nodes))
  {
  }

  ghost predicate SteadyEvent(e: Event) {
    e.Act? && Steady(e.step)
  }

  ghost predicate Progress(e: Event) {
    e.Act? && Progresses(e.step)
  }

  /** Each steady event uses up at least its own share of the work left. */
  lemma SteadyEventUses(plan: Plan, s: World, e: Event, most: nat)
    requires Sound(plan) && NodesOk(plan, s) && AllReached(plan, s) && OutputsWithin(plan, most)
    requires Can(plan, s, e) && SteadyEvent(e)
    ensures Do(plan, s, e).injected == s.injected
    ensures WorkLeft(plan, Do(plan, s, e), most) + (if Progress(e) then 1 else 0) <= WorkLeft(plan, s, most)
  {
    if Lands(e.step) {
      LandUses(plan, s, e.v, e.step, most);
    } else {
      QuietShifts(plan, s, e.v, e.step, most);
      NamesAreUnique(plan);
      ShiftSum(plan, s.injected, most, s, Do(plan, s, e), e.v, if Progresses(e.step) then 1 else 0, e.v, 0,
               Names(plan.nodes));
    }
  }

  // ---------- The theorems ----------

  ghost function ProgressSteps(events: seq<Event>, i: nat, j: nat): nat
    requires i <= j <= |events|
  {
    if i == j then 0 else ProgressSteps(events, i, j - 1) + if Progress(events[j - 1]) then 1 else 0
  }

  /** The step at k uses up its own share of the work left. */
  ghost predicate StepUses(plan: Plan, states: seq<World>, events: seq<Event>, k: nat, most: nat)
    requires k < |events| && |states| == |events| + 1
  {
    WorkLeft(plan, states[k + 1], most) + (if Progress(events[k]) then 1 else 0) <= WorkLeft(plan, states[k], most)
  }

  lemma {:induction false} StepsAddUp(plan: Plan, states: seq<World>, events: seq<Event>, i: nat, j: nat, most: nat)
    requires i <= j <= |events| && |states| == |events| + 1
    requires forall k :: i <= k < j ==> StepUses(plan, states, events, k, most)
    ensures ProgressSteps(events, i, j) + WorkLeft(plan, states[j], most) <= WorkLeft(plan, states[i], most)
  {
    if i < j {
      var k: nat := j - 1;
      StepsAddUp(plan, states, events, i, k, most);
      assert StepUses(plan, states, events, k, most);
      OneMoreProgress(events, i, k);
    }
  }

  /**
   From every reachable state, whatever crashes, lost partitions, redeliveries and recoveries led to it: as long as
   nothing more fails and nothing more enters, only so many steps of work are possible.
   */
  lemma EveryContinuationEnds(plan: Plan, states: seq<World>, events: seq<Event>, i: nat, j: nat, most: nat)
    requires Sound(plan) && WorldRun(plan, states, events) && i <= j <= |events| && OutputsWithin(plan, most)
    requires forall k :: i <= k < j ==> SteadyEvent(events[k])
    ensures ProgressSteps(events, i, j) + WorkLeft(plan, states[j], most) <= WorkLeft(plan, states[i], most)
  {
    forall k | i <= k < j ensures StepUses(plan, states, events, k, most) {
      ContinuationStep(plan, states, events, k, most);
    }
    StepsAddUp(plan, states, events, i, j, most);
  }

  lemma OneMoreProgress(events: seq<Event>, i: nat, j: nat)
    requires i <= j < |events|
    ensures ProgressSteps(events, i, j + 1) == ProgressSteps(events, i, j) + if Progress(events[j]) then 1 else 0
  {
  }

  lemma ContinuationStep(plan: Plan, states: seq<World>, events: seq<Event>, i: nat, most: nat)
    requires Sound(plan) && WorldRun(plan, states, events) && i < |events| && OutputsWithin(plan, most)
    requires SteadyEvent(events[i])
    ensures WorkLeft(plan, states[i + 1], most) + (if Progress(events[i]) then 1 else 0) <=
            WorkLeft(plan, states[i], most)
  {
    WorldRunKeeps(plan, states, events, i);
    RunIsReached(plan, states, events, i);
    SteadyEventUses(plan, states[i], events[i], most);
  }

  lemma {:induction false} DownstreamBound(nodes: seq<NodeSpec>, u: Name)
    ensures |Downstream(nodes, u)| <= TotalEntries(nodes)
  {
    if nodes != [] {
      DownstreamBound(nodes[..|nodes| - 1], u);
      HitsBound(nodes[|nodes| - 1].deps, u, nodes[|nodes| - 1].name);
    }
  }

  lemma {:induction false} HitsBound(deps: seq<Name>, u: Name, v: Name)
    ensures |Hits(deps, u, v)| <= |deps|
  {
    if deps != [] {
      HitsBound(deps[..|deps| - 1], u, v);
    }
  }

  function TotalEntries(nodes: seq<NodeSpec>): nat {
    if nodes == [] then 0 else TotalEntries(nodes[..|nodes| - 1]) + |nodes[|nodes| - 1].deps|
  }

  lemma OutputsAreBounded(plan: Plan)
    ensures OutputsWithin(plan, TotalEntries(plan.nodes))
  {
    forall v ensures |Outs(plan, v)| <= TotalEntries(plan.nodes) {
      DownstreamBound(plan.nodes, v);
    }
  }

  ghost predicate SteadyFrom(events: seq<Event>, i: nat) {
    forall k :: i <= k < |events| ==> SteadyEvent(events[k]) && Works(events[k])
  }

  /**
   After every run, crashes and all, the runners can come to rest by their own steps alone, and what has completed
   then is exactly the least closure of what entered.
   */
  lemma {:induction false} EveryRunSettles(plan: Plan, states: seq<World>, events: seq<Event>)
    returns (allStates: seq<World>, allEvents: seq<Event>)
    requires Sound(plan) && WorldRun(plan, states, events)
    ensures states <= allStates && events <= allEvents && WorldRun(plan, allStates, allEvents)
    ensures SteadyFrom(allEvents, |events|) && allStates[|allEvents|].injected == states[|events|].injected
    ensures Quiescent(plan, allStates[|allEvents|])
    ensures forall c :: CompletedSet(plan, allStates[|allEvents|], c) == Reach(plan, states[|events|].injected, c)
    decreases WorkLeft(plan, states[|events|], TotalEntries(plan.nodes))
  {
    var s := states[|events|];
    WorldRunKeeps(plan, states, events, |events|);
    if Quiescent(plan, s) {
      allStates, allEvents := states, events;
      RestingIsReach(plan, states, events);
    } else {
      var e := SwarmCanMove(plan, s);
      var moreStates, moreEvents := states + [Do(plan, s, e)], events + [e];
      RunOnce(plan, states, events, e);
      allStates, allEvents := EveryRunSettles(plan, moreStates, moreEvents);
      SteadyFromEarlier(events, e, allEvents);
      assert states <= moreStates <= allStates;
    }
  }

  lemma SteadyFromEarlier(events: seq<Event>, e: Event, all: seq<Event>)
    requires events + [e] <= all && Works(e) && SteadyFrom(all, |events| + 1)
    ensures SteadyFrom(all, |events|) && events <= all
  {
    assert all[|events|] == (events + [e])[|events|];
  }

  /** And they have come to rest as soon as none of them can move. */
  lemma ExhaustedRunIsComplete(plan: Plan, states: seq<World>, events: seq<Event>)
    requires Sound(plan) && WorldRun(plan, states, events) && Exhausted(plan, states[|events|])
    ensures Quiescent(plan, states[|events|])
    ensures forall c :: CompletedSet(plan, states[|events|], c) == Reach(plan, states[|events|].injected, c)
  {
    WorldRunKeeps(plan, states, events, |events|);
    if !Quiescent(plan, states[|events|]) {
      var e := SwarmCanMove(plan, states[|events|]);
    }
    RestingIsReach(plan, states, events);
  }

  lemma RestingIsReach(plan: Plan, states: seq<World>, events: seq<Event>)
    requires Sound(plan) && WorldRun(plan, states, events) && Quiescent(plan, states[|events|])
    ensures forall c :: CompletedSet(plan, states[|events|], c) == Reach(plan, states[|events|].injected, c)
  {
    forall c ensures CompletedSet(plan, states[|events|], c) == Reach(plan, states[|events|].injected, c) {
      ReachIsLeast(plan, states[|events|].injected, c);
      CompletedIsLeastClosure(plan, states, events, c);
    }
  }

  lemma LongerWorldRun(plan: Plan, states: seq<World>, events: seq<Event>, e: Event)
    requires WorldRun(plan, states, events) && Can(plan, states[|events|], e)
    ensures WorldRun(plan, states + [Do(plan, states[|events|], e)], events + [e])
  {
    var moreStates, moreEvents := states + [Do(plan, states[|events|], e)], events + [e];
    forall i | 0 <= i < |moreEvents|
      ensures Can(plan, moreStates[i], moreEvents[i])
      ensures moreStates[i + 1] == Do(plan, moreStates[i], moreEvents[i])
    {
      if i < |events| {
        assert moreStates[i] == states[i] && moreStates[i + 1] == states[i + 1] && moreEvents[i] == events[i];
      }
    }
  }

  lemma RunOnce(plan: Plan, states: seq<World>, events: seq<Event>, e: Event)
    requires Sound(plan) && WorldRun(plan, states, events) && Can(plan, states[|events|], e) && Works(e)
    ensures WorldRun(plan, states + [Do(plan, states[|events|], e)], events + [e])
    ensures Do(plan, states[|events|], e).injected == states[|events|].injected
    ensures WorkLeft(plan, Do(plan, states[|events|], e), TotalEntries(plan.nodes)) <
            WorkLeft(plan, states[|events|], TotalEntries(plan.nodes))
  {
    LongerWorldRun(plan, states, events, e);
    WorldRunKeeps(plan, states, events, |events|);
    RunIsReached(plan, states, events, |events|);
    OutputsAreBounded(plan);
    SteadyEventUses(plan, states[|events|], e, TotalEntries(plan.nodes));
  }
}
