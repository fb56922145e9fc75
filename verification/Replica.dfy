/** Several processes of one worker: harmless for a straight-through node, not for a fan-in node. */
module Replica {
  import opened Types
  import opened Changelog
  import opened Runner
  import opened RunnerTheorems
  import opened SwarmTheorems

  /** Started before anything was recorded: this process hydrated nothing. */
  ghost function Booted(cfg: Config): Node {
    DoStart(DoRestart(cfg, Init(cfg)))
  }

  ghost predicate CanRecord(cfg: Config, n: Node, m: Msg) {
    && 0 < |n.lanes| && CanDeliver(cfg, n, 0, m) && CanTake(DoDeliver(n, 0, m), 0)
    && CanMarkJoined(cfg, DoJoin(DoDeliver(n, 0, m), 0), 0, map[])
  }

  /** m arrives, is recorded, marked and committed by a process that still waits for more. */
  ghost function Recording(cfg: Config, n: Node, m: Msg): Node
    requires CanRecord(cfg, n, m)
  {
    DoCommit(DoMarkJoined(cfg, DoJoin(DoDeliver(n, 0, m), 0), 0, map[]), 0)
  }

  /** A rebalance hands the partition to `other`, which keeps the joins it hydrated long ago. */
  ghost function Rebalanced(n: Node, other: Node): Node {
    n.(joins := other.joins,
       lanes := seq(|n.lanes|, i requires 0 <= i < |n.lanes| => Stopped(n.lanes[i])))
  }

  lemma FirstRecording(cfg: Config, m: Msg) returns (n: Node)
    requires cfg.FanIn() && cfg.lanes == 1 && cfg.part(m.cid) == 0 && m.source in cfg.deps
    ensures CanStart(cfg, DoRestart(cfg, Init(cfg))) && CanRecord(cfg, Booted(cfg), m)
            && n == Recording(cfg, Booted(cfg), m)
    ensures AllIdle(n) && n.lanes == [Lane([m], 1, 1, Idle, map[0 := 0])] && n.attempts == []
    ensures Replay(n.changelog) == map[m.cid := map[m.source := m.data]]
  {
    var b := Booted(cfg);
    assert Replay([]) == map[];
    var j := DoJoin(DoDeliver(b, 0, m), 0);
    assert j.joins[m.cid] == map[m.source := m.data];
    ReplayAppend([], Record(m.cid, State(j.joins[m.cid])));
    assert j.changelog == [] + [Record(m.cid, State(j.joins[m.cid]))];
    n := Recording(cfg, b, m);
    assert n.lanes[0].log == [m] && n.lanes[0].stamps == map[0 := 0];
    assert n.lanes == [n.lanes[0]];
  }

  /**
   With two processes: the second, hydrated before the first contribution was recorded, takes over the
   partition and overwrites the partial join. Both dependencies reported and every offset is committed,
   yet the first contribution is gone from the changelog and no result was ever published.
   */
  lemma SecondReplicaLosesContribution(cfg: Config, c: Cid, u: Name, v: Name, d: Data, e: Data)
    returns (first: Node, last: Node)
    requires cfg.deps == [u, v] && u != v && cfg.lanes == 1 && cfg.part(c) == 0
    ensures CanRecord(cfg, Booted(cfg), Msg(c, u, d)) && first == Recording(cfg, Booted(cfg), Msg(c, u, d))
    ensures var taken := Rebalanced(first, Booted(cfg));
            CanRecord(cfg, taken, Msg(c, v, e)) && last == Recording(cfg, taken, Msg(c, v, e))
    ensures AtRest(last) && HeardFrom(cfg, last, c, u) && HeardFrom(cfg, last, c, v)
    ensures c in Replay(last.changelog) && u !in Replay(last.changelog)[c] && !Attempted(last.attempts, c)
  {
    first := FirstRecording(cfg, Msg(c, u, d));
    last := SecondRecording(cfg, first, Msg(c, u, d), Msg(c, v, e));
    HeardAt(cfg, last, 0, Msg(c, u, d));
    HeardAt(cfg, last, 1, Msg(c, v, e));
  }

  lemma HeardAt(cfg: Config, n: Node, i: nat, m: Msg)
    requires cfg.part(m.cid) < |n.lanes| && i < |n.lanes[cfg.part(m.cid)].log| && n.lanes[cfg.part(m.cid)].log[i] == m
    ensures HeardFrom(cfg, n, m.cid, m.source)
  {
    assert Msg(m.cid, m.source, m.data) in n.lanes[cfg.part(m.cid)].log;
  }

  /** The second process records into the empty join it hydrated, over what the first one wrote. */
  lemma SecondRecording(cfg: Config, first: Node, m: Msg, m': Msg) returns (last: Node)
    requires cfg.FanIn() && cfg.lanes == 1 && cfg.part(m.cid) == 0 && m'.cid == m.cid && m'.source in cfg.deps
    requires AllIdle(first) && first.lanes == [Lane([m], 1, 1, Idle, map[0 := 0])] && first.attempts == []
    ensures var taken := Rebalanced(first, Booted(cfg)); CanRecord(cfg, taken, m') && last == Recording(cfg, taken, m')
    ensures AtRest(last) && last.lanes[0].log == [m, m'] && last.attempts == []
    ensures Lookup(Replay(last.changelog), m.cid) == Some(map[m'.source := m'.data])
  {
    var taken := Rebalanced(first, Booted(cfg));
    assert Replay([]) == map[];
    var j := DoJoin(DoDeliver(taken, 0, m'), 0);
    assert j.joins[m.cid] == map[m'.source := m'.data];
    ReplayAppend(first.changelog, Record(m.cid, State(j.joins[m.cid])));
    last := Recording(cfg, taken, m');
    assert last.lanes[0].log == [m, m'];
  }

  /**
   A process of a straight-through worker loses partition p in mid-publish, by dying or by being dropped from the
   group. Its siblings stand where they stood, the partition is taken up again from the committed offset, and the
   abandoned attempt may still go on to the remaining topics.
   */
  lemma SiblingsGoOn(cfg: Config, n: Node, p: nat, a: nat)
    requires !cfg.FanIn() && n.phase.Running? && p < |n.lanes| && n.lanes[p].pc == Publishing(a)
    requires a < |n.attempts| && |n.attempts[a].landed| < cfg.outputs
    ensures Enabled(cfg, n, Rewind(p))
    ensures var t := Apply(cfg, n, Rewind(p));
            && t.phase.Running? && t.lanes[p].pc.Idle? && t.lanes[p].marked == n.lanes[p].committed
            && (forall q :: 0 <= q < |n.lanes| && q != p ==> t.lanes[q] == n.lanes[q])
            && Enabled(cfg, t, StrayLand(a)) && Apply(cfg, t, StrayLand(a)).attempts == DoLand(n, Consumer(p)).attempts
  {
  }
}
