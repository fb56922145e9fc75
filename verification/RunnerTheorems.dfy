/** What holds after every run of one runner: crashes, redeliveries and failed sends anywhere in it. */
module RunnerTheorems {
  import opened Types
  import opened Changelog
  import opened Runner
  import opened RunnerProofs

  /** A run from the initial state, one labelled step at a time. */
  ghost predicate IsRun(cfg: Config, states: seq<Node>, steps: seq<Step>) {
    && |states| == |steps| + 1 && states[0] == Init(cfg)
    && forall i :: 0 <= i < |steps| ==>
         Enabled(cfg, states[i], steps[i]) && states[i + 1] == Apply(cfg, states[i], steps[i])
  }

  lemma {:induction false} RunKeeps(cfg: Config, states: seq<Node>, steps: seq<Step>, i: nat)
    requires IsRun(cfg, states, steps) && i <= |steps|
    ensures Inv(cfg, states[i])
  {
    if i == 0 {
      InitOk(cfg);
    } else {
      RunKeeps(cfg, states, steps, i - 1);
      StepKeeps(cfg, states[i - 1], steps[i - 1]);
    }
  }

  /**
   Every fan-in message below the marked offset is either still in the replayed changelog, under its
   source, or was merged into a result that reached every output topic after it was recorded.
   */
  lemma NoLostContribution(cfg: Config, states: seq<Node>, steps: seq<Step>, p: nat, i: nat)
    requires cfg.FanIn() && IsRun(cfg, states, steps)
    requires var s := states[|steps|]; p < |s.lanes| && i < s.lanes[p].marked
    ensures var s := states[|steps|];
            && i < |s.lanes[p].log| && i in s.lanes[p].stamps
            && var m := s.lanes[p].log[i];
               || (m.cid in Replay(s.changelog) && m.source in Replay(s.changelog)[m.cid])
               || exists a :: s.lanes[p].stamps[i] <= a < |s.attempts| && s.attempts[a].cid == m.cid &&
                    m.source in s.attempts[a].received && |s.attempts[a].landed| == cfg.outputs
  {
    RunKeeps(cfg, states, steps, |steps|);
    var s := states[|steps|];
    assert Secured(cfg, Replay(s.changelog), s.attempts, s.lanes[p], i);
  }

  ghost predicate AllIdle(s: Node) {
    s.phase.Running? && forall p :: 0 <= p < |s.lanes| ==> s.lanes[p].pc.Idle?
  }

  /** Received is the join of exactly the declared dependencies. */
  ghost predicate Whole(cfg: Config, received: Received) {
    received.Keys == Elements(cfg.deps)
  }

  lemma CountIsWhole(cfg: Config, lanes: seq<Lane>, c: Cid, received: Received)
    requires Distinct(cfg.deps) && Genuine(cfg, lanes, c, received) && |received| >= |cfg.deps|
    ensures Whole(cfg, received)
  {
    assert received.Keys <= Elements(cfg.deps);
    DistinctCardinality(cfg.deps);
    SubsetCardinality(received.Keys, Elements(cfg.deps));
    assert |received.Keys| == |received|;
  }

  /** Comparing sizes is enough: an attempt is only ever made on the join of exactly `dependsOn`. */
  lemma JoinByCounting(cfg: Config, states: seq<Node>, steps: seq<Step>, a: nat)
    requires cfg.FanIn() && Distinct(cfg.deps) && IsRun(cfg, states, steps) && a < |states[|steps|].attempts|
    ensures var t := states[|steps|].attempts[a];
            && t.received.Keys == Elements(cfg.deps)
            && forall u :: u in t.received ==>
                 cfg.part(t.cid) < |states[|steps|].lanes|
                   && Msg(t.cid, u, t.received[u]) in states[|steps|].lanes[cfg.part(t.cid)].log
  {
    RunKeeps(cfg, states, steps, |steps|);
    var s := states[|steps|];
    assert AttemptOk(cfg, s.lanes, s.attempts[a]);
    CountIsWhole(cfg, s.lanes, s.attempts[a].cid, s.attempts[a].received);
  }

  /**
   When the process is idle, each join in memory is what the changelog replays to and is still short of
   a dependency; a join only the changelog holds is whole and was published to every topic.
   */
  lemma MemoryAgreesWithChangelog(cfg: Config, states: seq<Node>, steps: seq<Step>, c: Cid)
    requires cfg.FanIn() && Distinct(cfg.deps) && IsRun(cfg, states, steps) && AllIdle(states[|steps|])
    ensures var s := states[|steps|];
            && (c in s.joins ==>
                  c in Replay(s.changelog) && s.joins[c] == Replay(s.changelog)[c] && 0 < |s.joins[c]| < |cfg.deps|)
            && (c in Replay(s.changelog) && c !in s.joins ==>
                  && Replay(s.changelog)[c].Keys == Elements(cfg.deps)
                  && exists a :: 0 <= a < |s.attempts| && s.attempts[a].cid == c &&
                       s.attempts[a].received == Replay(s.changelog)[c] && |s.attempts[a].landed| == cfg.outputs)
  {
    RunKeeps(cfg, states, steps, |steps|);
    var s := states[|steps|];
    if c in s.joins {
      IdleMemory(cfg, s, c);
    } else if c in Replay(s.changelog) {
      IdleStore(cfg, s, c);
    }
  }

  lemma IdleMemory(cfg: Config, s: Node, c: Cid)
    requires cfg.FanIn() && DurableOk(cfg, s) && MemoryOk(cfg, s) && BusyOk(cfg, s) && AllIdle(s) && c in s.joins
    ensures c in Replay(s.changelog) && s.joins[c] == Replay(s.changelog)[c] && 0 < |s.joins[c]| < |cfg.deps|
  {
    assert Genuine(cfg, s.lanes, c, Replay(s.changelog)[c]);
    assert s.joins[c] != map[];
  }

  lemma IdleStore(cfg: Config, s: Node, c: Cid)
    requires cfg.FanIn() && Distinct(cfg.deps) && AttemptsOk(cfg, s) && MemoryOk(cfg, s) && AllIdle(s)
    requires c in Replay(s.changelog) && c !in s.joins
    ensures Whole(cfg, Replay(s.changelog)[c])
    ensures exists a :: 0 <= a < |s.attempts| && s.attempts[a].cid == c &&
              s.attempts[a].received == Replay(s.changelog)[c] && |s.attempts[a].landed| == cfg.outputs
  {
    var kept := Replay(s.changelog);
    var a :| 0 <= a < |s.attempts| && RetiredBy(cfg, s.lanes, s.attempts[a], a, c, kept[c]);
    assert AttemptOk(cfg, s.lanes, s.attempts[a]);
    CountIsWhole(cfg, s.lanes, c, kept[c]);
  }

  /**
   A straight-through node marks an offset only once the result of that very message reached every output
   topic, and every attempt, interrupted or not, reached a prefix of the topic list.
   */
  lemma NeverMarkedEarly(cfg: Config, states: seq<Node>, steps: seq<Step>, p: nat, i: nat)
    requires !cfg.FanIn() && IsRun(cfg, states, steps)
    requires p < |states[|steps|].lanes| && i < states[|steps|].lanes[p].marked
    ensures var s := states[|steps|];
            && i < |s.lanes[p].log|
            && exists a :: 0 <= a < |s.attempts| && s.attempts[a].lane == p && s.attempts[a].offset == i &&
                 s.attempts[a].cid == s.lanes[p].log[i].cid && s.attempts[a].input == s.lanes[p].log[i].data &&
                 s.attempts[a].landed == seq(cfg.outputs, k => k)
  {
    RunKeeps(cfg, states, steps, |steps|);
    var s := states[|steps|];
    assert LaneOk(cfg, p, s.lanes[p], |s.attempts|, s.phase.Running?);
    assert Forwarded(cfg, s.attempts, p, i);
    var a :| 0 <= a < |s.attempts| && s.attempts[a].lane == p && s.attempts[a].offset == i
      && Complete(cfg, s.attempts[a]);
    assert AttemptOk(cfg, s.lanes, s.attempts[a]);
    assert s.attempts[a].landed == seq(cfg.outputs, k => k);
  }

  lemma AttemptsReachPrefixes(cfg: Config, states: seq<Node>, steps: seq<Step>, a: nat)
    requires IsRun(cfg, states, steps) && a < |states[|steps|].attempts|
    ensures var t := states[|steps|].attempts[a];
            t.landed <= seq(cfg.outputs, k => k) && t.input.Keys <= t.out.Keys
  {
    RunKeeps(cfg, states, steps, |steps|);
    assert AttemptOk(cfg, states[|steps|].lanes, states[|steps|].attempts[a]);
  }

  lemma GenuineIsSmall(cfg: Config, lanes: seq<Lane>, c: Cid, received: Received)
    requires Genuine(cfg, lanes, c, received)
    ensures |received| <= |Elements(cfg.deps)|
  {
    assert received.Keys <= Elements(cfg.deps);
    SubsetCardinality(received.Keys, Elements(cfg.deps));
    assert |received.Keys| == |received|;
  }

  /** Why `dependsOn` must name each node once: otherwise the count is never reached, and no run ever publishes. */
  lemma DuplicatesNeverComplete(cfg: Config, states: seq<Node>, steps: seq<Step>)
    requires cfg.FanIn() && |Elements(cfg.deps)| < |cfg.deps| && IsRun(cfg, states, steps)
    ensures states[|steps|].attempts == []
  {
    RunKeeps(cfg, states, steps, |steps|);
    var s := states[|steps|];
    if s.attempts != [] {
      assert AttemptOk(cfg, s.lanes, s.attempts[0]);
      GenuineIsSmall(cfg, s.lanes, s.attempts[0].cid, s.attempts[0].received);
    }
  }

  // ---------- What is stored, and what is not ----------

  /** The contribution the next fan-in message makes. */
  ghost predicate Recording(cfg: Config, s: Node, step: Step, c: Cid, u: Name) {
    && step.Join? && CanTake(s, step.p)
    && var m := s.lanes[step.p].log[s.lanes[step.p].marked];
       m.cid == c && m.source == u
  }

  ghost predicate Stored(changelog: seq<Record>, c: Cid, u: Name, d: Data) {
    var kept := Replay(changelog);
    c in kept && u in kept[c] && kept[c][u] == d
  }

  /** Whatever was stored for its source before, a recorded message is what the changelog now holds for it. */
  lemma RecordingStores(cfg: Config, s: Node, p: nat)
    requires cfg.FanIn() && CanTake(s, p)
    ensures var m := s.lanes[p].log[s.lanes[p].marked];
            Stored(Apply(cfg, s, Join(p)).changelog, m.cid, m.source, m.data)
  {
    var m := s.lanes[p].log[s.lanes[p].marked];
    ReplayAppend(s.changelog, Record(m.cid, State(Contributed(s.joins, m))));
  }

  /** What the changelog holds for (c, u), if anything, is d. */
  ghost predicate OnlyStored(changelog: seq<Record>, c: Cid, u: Name, d: Data) {
    var kept := Replay(changelog);
    c in kept && u in kept[c] ==> kept[c][u] == d
  }

  lemma JoinStoresOnly(cfg: Config, s: Node, p: nat, c: Cid, u: Name, d: Data)
    requires cfg.FanIn() && CanTake(s, p) && MemoryOk(cfg, s) && !Recording(cfg, s, Join(p), c, u)
    requires OnlyStored(s.changelog, c, u, d)
    ensures OnlyStored(DoJoin(s, p).changelog, c, u, d)
  {
    var m := s.lanes[p].log[s.lanes[p].marked];
    ReplayAppend(s.changelog, Record(m.cid, State(Contributed(s.joins, m))));
  }

  lemma StepStoresOnly(cfg: Config, s: Node, step: Step, c: Cid, u: Name, d: Data)
    requires cfg.FanIn() && Inv(cfg, s) && Enabled(cfg, s, step) && !Recording(cfg, s, step, c, u)
    requires OnlyStored(s.changelog, c, u, d)
    ensures OnlyStored(Apply(cfg, s, step).changelog, c, u, d)
  {
    match step
    case Join(p) => JoinStoresOnly(cfg, s, p, c, u, d);
    case Bury(w, landed) => ReplayAppend(s.changelog, Record(s.attempts[PcOf(s, w).a].cid, Tombstone));
    case Compact(i) => CompactionStep(s.changelog, i);
    case _ =>
  }

  /**
   The latest word of a source counts: from the moment a message is recorded until the same source is recorded again
   for the same ID, through crashes, recoveries and compaction, the changelog holds that message's data for it or
   nothing at all.
   */
  lemma {:induction false} LatestContributionCounts(cfg: Config, states: seq<Node>, steps: seq<Step>, i: nat, j: nat)
    requires cfg.FanIn() && IsRun(cfg, states, steps) && i < j <= |steps| && steps[i].Join?
    requires var m := states[i].lanes[steps[i].p].log[states[i].lanes[steps[i].p].marked];
             forall k :: i < k < j ==> !Recording(cfg, states[k], steps[k], m.cid, m.source)
    ensures var m := states[i].lanes[steps[i].p].log[states[i].lanes[steps[i].p].marked];
            OnlyStored(states[j].changelog, m.cid, m.source, m.data)
  {
    var m := states[i].lanes[steps[i].p].log[states[i].lanes[steps[i].p].marked];
    if j == i + 1 {
      RecordingStores(cfg, states[i], steps[i].p);
    } else {
      var k: nat := j - 1;
      LatestContributionCounts(cfg, states, steps, i, k);
      RunKeeps(cfg, states, steps, k);
      StepStoresOnly(cfg, states[k], steps[k], m.cid, m.source, m.data);
    }
  }

  /** A tombstone that lands removes the published join from what the next process will hydrate, and nothing else. */
  lemma TombstoneDeletes(cfg: Config, s: Node, w: Worker, c: Cid)
    requires CanBury(s, w)
    ensures var t := Apply(cfg, s, Bury(w, true));
            Lookup(Replay(t.changelog), c) ==
            if c == s.attempts[PcOf(s, w).a].cid then None else Lookup(Replay(s.changelog), c)
  {
    ReplayAppend(s.changelog, Record(s.attempts[PcOf(s, w).a].cid, Tombstone));
  }

  /** What was marked when the group committed is not delivered again after a crash or a new session; the rest is. */
  lemma CommitSurvives(cfg: Config, s: Node, p: nat)
    requires Live(s, Consumer(p))
    ensures Apply(cfg, Apply(cfg, s, Commit(p)), Crash).lanes[p].marked == s.lanes[p].marked
    ensures Apply(cfg, s, Crash).lanes[p].marked == s.lanes[p].committed
    ensures CanRewind(cfg, s, p) ==> Apply(cfg, s, Rewind(p)).lanes[p].marked == s.lanes[p].committed
    ensures CanRewind(cfg, s, p) ==>
              Apply(cfg, Apply(cfg, s, Commit(p)), Rewind(p)).lanes[p].marked == s.lanes[p].marked
  {
  }
}
