/** A run in which nothing fails: every node works on a correlation ID at most once. */
module ExactlyOnce {
  import opened Types
  import opened Changelog
  import opened Merge
  import opened Runner
  import opened RunnerProofs
  import opened RunnerTheorems

  // ---------- One runner without failures ----------

  /** Offsets taken off the lane so far, counting the message in hand. */
  function Taken(cfg: Config, lane: Lane): nat {
    lane.marked + if (if cfg.FanIn() then lane.pc.Recorded? else !lane.pc.Idle?) then 1 else 0
  }

  ghost predicate TakenFrom(cfg: Config, lane: Lane, c: Cid, u: Name) {
    exists i :: 0 <= i < Taken(cfg, lane) && i < |lane.log| && lane.log[i].cid == c && lane.log[i].source == u
  }

  ghost predicate OneAttempt(attempts: seq<Attempt>, c: Cid) {
    forall a, b :: 0 <= a < b < |attempts| ==> attempts[a].cid != c || attempts[b].cid != c
  }

  /** Before it first consumes, the node is as it was created. */
  ghost predicate Untouched(n: Node) {
    !n.phase.Running? ==>
      && n.attempts == [] && n.changelog == [] && n.joins == map[]
      && forall p :: 0 <= p < |n.lanes| ==> n.lanes[p].marked == 0
  }

  ghost predicate FanInOnce(cfg: Config, n: Node, c: Cid) {
    && cfg.part(c) < |n.lanes|
    && var lane := n.lanes[cfg.part(c)];
       && (c in n.joins ==> forall u :: u in n.joins[c] ==> TakenFrom(cfg, lane, c, u))
       && (Attempted(n.attempts, c) ==> forall u :: u in cfg.deps ==> TakenFrom(cfg, lane, c, u))
       && ((lane.pc.Recorded? || lane.pc.Ready?) && lane.pc.cid == c ==> !Attempted(n.attempts, c))
  }

  ghost predicate Spent(n: Node, t: Attempt) {
    && t.lane < |n.lanes|
    && (t.offset < n.lanes[t.lane].marked ||
        (t.offset == n.lanes[t.lane].marked && (n.lanes[t.lane].pc.Publishing? || n.lanes[t.lane].pc.Unmarked?)))
  }

  ghost predicate DirectOnce(cfg: Config, n: Node, c: Cid) {
    forall a :: 0 <= a < |n.attempts| && n.attempts[a].cid == c ==> Spent(n, n.attempts[a])
  }

  ghost predicate Once(cfg: Config, n: Node, c: Cid) {
    && Untouched(n) && OneAttempt(n.attempts, c)
    && if cfg.FanIn() then FanInOnce(cfg, n, c) else DirectOnce(cfg, n, c)
  }

  /** No two messages of the node's input carry c, from the same source unless any source will do. */
  ghost predicate Unrepeated(n: Node, c: Cid, anySource: bool) {
    forall p, q, i, j ::
      0 <= p < |n.lanes| && 0 <= q < |n.lanes| && 0 <= i < |n.lanes[p].log| && 0 <= j < |n.lanes[q].log| &&
      n.lanes[p].log[i].cid == c && n.lanes[q].log[j].cid == c &&
      (anySource || n.lanes[p].log[i].source == n.lanes[q].log[j].source)
      ==> p == q && i == j
  }

  predicate Calm(step: Step) {
    !step.Crash? && !step.Rewind? && !step.StrayRun? && !step.StrayLand?
  }

  lemma TakenGrows(cfg: Config, a: Lane, b: Lane, c: Cid, u: Name)
    requires a.log <= b.log && Taken(cfg, a) <= Taken(cfg, b) && TakenFrom(cfg, a, c, u)
    ensures TakenFrom(cfg, b, c, u)
  {
    var i :| 0 <= i < Taken(cfg, a) && i < |a.log| && a.log[i].cid == c && a.log[i].source == u;
    assert b.log[i] == a.log[i];
  }

  ghost predicate WorksOn(pc: Pc, c: Cid) {
    (pc.Recorded? || pc.Ready?) && pc.cid == c
  }

  /** Nothing is added to the join of c, and no attempt on c begins. */
  ghost predicate QuietAbout(cfg: Config, n: Node, t: Node, c: Cid) {
    && |n.lanes| == |t.lanes|
    && (cfg.part(c) < |n.lanes| ==>
          var a, b := n.lanes[cfg.part(c)], t.lanes[cfg.part(c)];
          a.log <= b.log && Taken(cfg, a) <= Taken(cfg, b) && (WorksOn(b.pc, c) ==> WorksOn(a.pc, c)))
    && (c in t.joins ==> c in n.joins && t.joins[c] == n.joins[c])
    && (Attempted(t.attempts, c) ==> Attempted(n.attempts, c))
  }

  lemma FanInQuiet(cfg: Config, n: Node, t: Node, c: Cid)
    requires FanInOnce(cfg, n, c) && QuietAbout(cfg, n, t, c)
    ensures FanInOnce(cfg, t, c)
  {
    var a, b := n.lanes[cfg.part(c)], t.lanes[cfg.part(c)];
    forall u | TakenFrom(cfg, a, c, u) ensures TakenFrom(cfg, b, c, u) {
      TakenGrows(cfg, a, b, c, u);
    }
  }

  /** A process that has not consumed yet has nothing to recover. */
  lemma NothingToRecover(cfg: Config, n: Node)
    requires Runner.Inv(cfg, n) && Untouched(n) && n.phase.Recovering?
    ensures n.phase.pc == Idle
  {
    assert Replay(n.changelog) == map[];
    assert cfg.FanIn() ==> PcOk(cfg, n.lanes, n.joins, Replay(n.changelog), n.attempts, n.phase.pc);
  }

  lemma CalmIsUntouched(cfg: Config, n: Node, step: Step)
    requires Runner.Inv(cfg, n) && Untouched(n) && Enabled(cfg, n, step) && Calm(step)
    ensures Untouched(Apply(cfg, n, step))
  {
    assert Replay([]) == map[];
    if n.phase.Recovering? {
      NothingToRecover(cfg, n);
    }
  }

  // --- fan-in ---

  lemma FreshContribution(cfg: Config, n: Node, p: nat)
    requires cfg.FanIn() && CanTake(n, p) && p == cfg.part(n.lanes[p].log[n.lanes[p].marked].cid)
    requires n.lanes[p].log[n.lanes[p].marked].source in cfg.deps
    requires var c := n.lanes[p].log[n.lanes[p].marked].cid; FanInOnce(cfg, n, c) && Unrepeated(n, c, false)
    ensures !Attempted(n.attempts, n.lanes[p].log[n.lanes[p].marked].cid)
  {
    var lane := n.lanes[p];
    var m := lane.log[lane.marked];
    assert !TakenFrom(cfg, lane, m.cid, m.source);
  }

  lemma JoinOnce(cfg: Config, n: Node, p: nat, c: Cid)
    requires cfg.FanIn() && CanTake(n, p) && p == cfg.part(n.lanes[p].log[n.lanes[p].marked].cid)
    requires n.lanes[p].log[n.lanes[p].marked].source in cfg.deps
    requires FanInOnce(cfg, n, c) && Unrepeated(n, c, false)
    ensures FanInOnce(cfg, DoJoin(n, p), c)
  {
    var t, lane := DoJoin(n, p), n.lanes[p];
    var m := lane.log[lane.marked];
    if m.cid == c {
      FreshContribution(cfg, n, p);
      forall u | u in t.joins[c] ensures TakenFrom(cfg, t.lanes[p], c, u) {
        if u == m.source {
          assert t.lanes[p].log[lane.marked] == m;
        } else {
          TakenGrows(cfg, lane, t.lanes[p], c, u);
        }
      }
    } else {
      FanInQuiet(cfg, n, t, c);
    }
  }

  lemma AttemptTakesAll(cfg: Config, n: Node, w: Worker, out: Data, c: Cid)
    requires cfg.FanIn() && w.Consumer? && CanRunAgent(n, w, out) && PcOf(n, w).cid == c && w.p == cfg.part(c)
    requires FanInOnce(cfg, n, c) && Lookup(n.joins, c) == Some(PcOf(n, w).received) && Whole(cfg, PcOf(n, w).received)
    ensures FanInOnce(cfg, DoRunAgent(n, w, out), c) && !Attempted(n.attempts, c)
  {
    var t, lane := DoRunAgent(n, w, out), n.lanes[w.p];
    forall u | u in cfg.deps ensures TakenFrom(cfg, t.lanes[w.p], c, u) {
      assert u in Elements(cfg.deps);
      assert u in n.joins[c];
      TakenGrows(cfg, lane, t.lanes[w.p], c, u);
    }
    forall u | c in t.joins && u in t.joins[c] ensures TakenFrom(cfg, t.lanes[w.p], c, u) {
      TakenGrows(cfg, lane, t.lanes[w.p], c, u);
    }
  }

  lemma RunAgentOnce(cfg: Config, n: Node, w: Worker, out: Data, c: Cid)
    requires cfg.FanIn() && w.Consumer? && CanRunAgent(n, w, out) && FanInOnce(cfg, n, c) && OneAttempt(n.attempts, c)
    requires PcOf(n, w).cid == c ==>
               w.p == cfg.part(c) && Lookup(n.joins, c) == Some(PcOf(n, w).received) && Whole(cfg, PcOf(n, w).received)
    ensures FanInOnce(cfg, DoRunAgent(n, w, out), c) && OneAttempt(DoRunAgent(n, w, out).attempts, c)
  {
    if PcOf(n, w).cid == c {
      AttemptTakesAll(cfg, n, w, out, c);
    } else {
      FanInQuiet(cfg, n, DoRunAgent(n, w, out), c);
    }
  }

  /** What the worker about to run the agent holds. */
  lemma ReadyHolds(cfg: Config, n: Node, w: Worker, out: Data)
    requires cfg.FanIn() && Distinct(cfg.deps) && Runner.Inv(cfg, n) && CanRunAgent(n, w, out)
    ensures w.Consumer? ==> w.p == cfg.part(PcOf(n, w).cid)
    ensures Lookup(n.joins, PcOf(n, w).cid) == Some(PcOf(n, w).received) && Whole(cfg, PcOf(n, w).received)
  {
    var c := PcOf(n, w).cid;
    WorkerStands(cfg, n, w, c);
    CountIsWhole(cfg, n.lanes, c, PcOf(n, w).received);
  }

  /** Steps other than joining and running the agent add nothing. */
  lemma OtherIsQuiet(cfg: Config, n: Node, step: Step, c: Cid)
    requires cfg.FanIn() && Untouched(n) && Enabled(cfg, n, step) && Calm(step) && !step.Join? && !step.RunAgent?
    requires n.phase.Recovering? ==> n.phase.pc == Idle
    requires forall p :: 0 <= p < |n.lanes| && !n.phase.Running? ==> n.lanes[p].pc == Idle
    ensures QuietAbout(cfg, n, Apply(cfg, n, step), c)
    ensures OneAttempt(n.attempts, c) ==> OneAttempt(Apply(cfg, n, step).attempts, c)
  {
    assert Replay([]) == map[];
  }

  lemma FanInStepOnce(cfg: Config, n: Node, step: Step, c: Cid)
    requires cfg.FanIn() && Distinct(cfg.deps) && Runner.Inv(cfg, n) && Once(cfg, n, c)
    requires Enabled(cfg, n, step) && Calm(step) && Unrepeated(n, c, false)
    ensures FanInOnce(cfg, Apply(cfg, n, step), c) && OneAttempt(Apply(cfg, n, step).attempts, c)
  {
    if n.phase.Recovering? {
      NothingToRecover(cfg, n);
    }
    if step.Join? {
      ConsumerExpects(cfg, n, step.p);
      JoinOnce(cfg, n, step.p, c);
    } else if step.RunAgent? {
      ReadyHolds(cfg, n, step.w, step.out);
      RunAgentOnce(cfg, n, step.w, step.out, c);
    } else {
      AllIdleUnlessRunning(cfg, n);
      OtherIsQuiet(cfg, n, step, c);
      FanInQuiet(cfg, n, Apply(cfg, n, step), c);
    }
  }

  lemma AllIdleUnlessRunning(cfg: Config, n: Node)
    requires Shape(cfg, n)
    ensures forall p :: 0 <= p < |n.lanes| && !n.phase.Running? ==> n.lanes[p].pc == Idle
  {
    assert forall p :: 0 <= p < |n.lanes| ==> LaneOk(cfg, p, n.lanes[p], |n.attempts|, n.phase.Running?);
  }

  // --- straight-through ---

  lemma FreshMessage(cfg: Config, n: Node, p: nat, c: Cid)
    requires !cfg.FanIn() && AttemptsOk(cfg, n) && DirectOnce(cfg, n, c) && Unrepeated(n, c, true)
    requires p < |n.lanes| && n.lanes[p].pc.Ready? && n.lanes[p].marked < |n.lanes[p].log|
    requires n.lanes[p].log[n.lanes[p].marked].cid == c
    ensures !Attempted(n.attempts, c)
  {
    forall a | 0 <= a < |n.attempts| ensures n.attempts[a].cid != c {
      assert AttemptOk(cfg, n.lanes, n.attempts[a]);
    }
  }

  lemma DirectRunAgentOnce(cfg: Config, n: Node, w: Worker, out: Data, c: Cid)
    requires !cfg.FanIn() && Runner.Inv(cfg, n) && Once(cfg, n, c) && CanRunAgent(n, w, out) && Unrepeated(n, c, true)
    ensures DirectOnce(cfg, DoRunAgent(n, w, out), c) && OneAttempt(DoRunAgent(n, w, out).attempts, c)
  {
    assert w.Consumer?;
    assert DirectOk(cfg, w.p, n.lanes[w.p], n.attempts);
    if PcOf(n, w).cid == c {
      FreshMessage(cfg, n, w.p, c);
    }
  }

  lemma DirectOtherOnce(cfg: Config, n: Node, step: Step, c: Cid)
    requires !cfg.FanIn() && DirectsOk(cfg, n) && DirectOnce(cfg, n, c) && OneAttempt(n.attempts, c) && Untouched(n)
    requires Enabled(cfg, n, step) && Calm(step) && !step.RunAgent?
    ensures DirectOnce(cfg, Apply(cfg, n, step), c) && OneAttempt(Apply(cfg, n, step).attempts, c)
  {
    if step.Land? || step.Finish? || step.Bury? {
      DirectWorkerOnce(cfg, n, step, c);
    } else {
      DirectLaneOnce(cfg, n, step, c);
    }
  }

  lemma DirectWorkerOnce(cfg: Config, n: Node, step: Step, c: Cid)
    requires !cfg.FanIn() && DirectsOk(cfg, n) && DirectOnce(cfg, n, c) && OneAttempt(n.attempts, c)
    requires Enabled(cfg, n, step) && (step.Land? || step.Finish? || step.Bury?)
    ensures DirectOnce(cfg, Apply(cfg, n, step), c) && OneAttempt(Apply(cfg, n, step).attempts, c)
  {
  }

  lemma DirectLaneOnce(cfg: Config, n: Node, step: Step, c: Cid)
    requires !cfg.FanIn() && DirectsOk(cfg, n) && DirectOnce(cfg, n, c) && OneAttempt(n.attempts, c)
    requires Enabled(cfg, n, step) && Calm(step) && !step.RunAgent? && !step.Land? && !step.Finish? && !step.Bury?
    ensures DirectOnce(cfg, Apply(cfg, n, step), c) && OneAttempt(Apply(cfg, n, step).attempts, c)
  {
  }

  /** Without crashes and redeliveries, a runner keeps to one attempt on c. */
  lemma CalmStepOnce(cfg: Config, n: Node, step: Step, c: Cid)
    requires Distinct(cfg.deps) && Runner.Inv(cfg, n) && Once(cfg, n, c)
    requires Enabled(cfg, n, step) && Calm(step) && Unrepeated(n, c, !cfg.FanIn())
    ensures Once(cfg, Apply(cfg, n, step), c)
  {
    CalmIsUntouched(cfg, n, step);
    if cfg.FanIn() {
      FanInStepOnce(cfg, n, step, c);
    } else if step.RunAgent? {
      DirectRunAgentOnce(cfg, n, step.w, step.out, c);
    } else {
      DirectOtherOnce(cfg, n, step, c);
    }
  }

  // ---------- A runner with work left can move ----------

  ghost predicate Useful(step: Step) {
    Calm(step) && !step.Deliver? && !step.Commit? && !step.Compact?
  }

  lemma SomeMerge(received: Received) returns (merged: Data)
    ensures IsMerge(received, merged)
  {
    var order := SomeOrder(received.Keys);
    assert forall i :: 0 <= i < |order| ==> order[i] in Elements(order);
    merged := Fold(order, received);
  }

  lemma WorkerCanMove(cfg: Config, n: Node, w: Worker) returns (step: Step)
    requires Runner.Inv(cfg, n) && Live(n, w) && !PcOf(n, w).Idle?
    ensures Useful(step) && Enabled(cfg, n, step)
  {
    var pc := PcOf(n, w);
    if cfg.FanIn() {
      assert PcOk(cfg, n.lanes, n.joins, Replay(n.changelog), n.attempts, pc);
    } else {
      assert w.Consumer? && DirectOk(cfg, w.p, n.lanes[w.p], n.attempts);
    }
    match pc
    case Recorded(c) =>
      var input := SomeMerge(n.joins[c]);
      step := MarkJoined(w.p, input);
    case Ready(c, received, input) => step := RunAgent(w, input);
    case Publishing(a) =>
      assert AttemptOk(cfg, n.lanes, n.attempts[a]);
      step := if |n.attempts[a].landed| < cfg.outputs then Land(w) else Finish(w);
    case Tombstoning(a) => step := Bury(w, true);
    case Unmarked(a) => step := MarkPublished(w.p);
  }

  lemma RecoveryCanMove(cfg: Config, n: Node) returns (step: Step)
    requires n.phase == Recovering(Idle)
    ensures Useful(step) && Enabled(cfg, n, step)
  {
    if c :| c in n.joins && |n.joins[c]| >= |cfg.deps| {
      var input := SomeMerge(n.joins[c]);
      step := Recover(c, input);
    } else {
      step := StartConsuming;
    }
  }

  /** A runner that is not at rest always has a step of its own, whatever happened before. */
  lemma NeverStuck(cfg: Config, n: Node) returns (step: Step)
    requires Runner.Inv(cfg, n)
    requires !AllIdle(n) || exists p :: 0 <= p < |n.lanes| && n.lanes[p].marked != |n.lanes[p].log|
    ensures Useful(step) && Enabled(cfg, n, step)
  {
    if n.phase.Down? {
      step := Restart;
    } else if n.phase.Recovering? && !n.phase.pc.Idle? {
      step := WorkerCanMove(cfg, n, Recovery);
    } else if n.phase.Recovering? {
      step := RecoveryCanMove(cfg, n);
    } else if p :| 0 <= p < |n.lanes| && !n.lanes[p].pc.Idle? {
      step := WorkerCanMove(cfg, n, Consumer(p));
    } else {
      var p :| 0 <= p < |n.lanes| && n.lanes[p].marked != |n.lanes[p].log|;
      assert LaneOk(cfg, p, n.lanes[p], |n.attempts|, n.phase.Running?);
      step := if cfg.FanIn() then Join(p) else PassThrough(p);
    }
  }
}
