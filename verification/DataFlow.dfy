/** What travels with a correlation ID through the swarm: the ID itself and every field of the root payload. */
module DataFlow {
  import opened Types
  import opened Merge
  import opened Runner
  import opened RunnerTheorems
  import opened Swarm
  import opened SwarmTheorems

  // ---------- Correlation IDs ----------

  /** A correlation ID nobody brought in is never worked on and never appears in a log. */
  lemma CorrelationIdsAreConserved(plan: Plan, states: seq<World>, events: seq<Event>, v: Name, p: nat, m: Msg)
    requires Sound(plan) && WorldRun(plan, states, events)
    requires var s := states[|events|]; v in s.nodes && p < |s.nodes[v].lanes| && m in s.nodes[v].lanes[p].log
    ensures exists j :: j in states[|events|].injected && j.m.cid == m.cid
  {
    var s := states[|events|];
    var none: set<Name> := {};
    if u :| Fed(plan, s.injected, none, m.cid, u) {
      FedByNobody(plan, s.injected, m.cid, u);
    } else {
      NothingElseCompletes(plan, states, events, none, m.cid);
      WorldRunKeeps(plan, states, events, |events|);
      MessageSupported(plan, s, none, v, p, m);
      assert Injection(v, m) in s.injected && Injection(v, m).m.cid == m.cid;
    }
  }

  lemma FedByNobody(plan: Plan, injected: seq<Injection>, c: Cid, v: Name)
    requires var none: set<Name> := {}; Fed(plan, injected, none, c, v)
    ensures exists j :: j in injected && j.m.cid == c
  {
    if Deps(plan, v) == [] {
      var m: Msg :| m.cid == c && Injection(v, m) in injected;
      assert Injection(v, m).m.cid == c;
    } else {
      var u := Deps(plan, v)[0];
      assert u in Deps(plan, v);
      var m: Msg :| m.cid == c && m.source == u && Injection(v, m) in injected;
      assert Injection(v, m).m.cid == c;
    }
  }

  // ---------- Fields ----------

  /** A root and workers each depending on the one before. */
  ghost predicate IsPath(plan: Plan, path: seq<Name>) {
    && path != [] && Deps(plan, path[0]) == []
    && (forall i :: 0 <= i < |path| ==> IsWorker(plan, path[i]))
    && forall i :: 0 < i < |path| ==> path[i - 1] in Deps(plan, path[i])
  }

  /** Every payload that entered at v for c has all the fields in keys. */
  ghost predicate EntersWith(injected: seq<Injection>, v: Name, c: Cid, keys: set<string>) {
    forall j :: j in injected && j.target == v && j.m.cid == c ==> keys <= j.m.data.Keys
  }

  ghost predicate Keeps(s: World, path: seq<Name>, c: Cid, keys: set<string>) {
    forall v, a ::
      v in path && v in s.nodes && 0 <= a < |s.nodes[v].attempts| && s.nodes[v].attempts[a].cid == c
      ==> keys <= s.nodes[v].attempts[a].input.Keys && keys <= s.nodes[v].attempts[a].out.Keys
  }

  ghost predicate PublishersKeep(s: World, path: seq<Name>, c: Cid, keys: set<string>) {
    forall v, a ::
      v in path && v in s.nodes && 0 <= a < |s.nodes[v].attempts| && s.nodes[v].attempts[a].cid == c
        && s.nodes[v].attempts[a].landed != []
      ==> keys <= s.nodes[v].attempts[a].out.Keys
  }

  /** A message from a node on the path has every field in `keys`. */
  lemma MessageKeeps(plan: Plan, s: World, path: seq<Name>, keys: set<string>, v: Name, p: nat, m: Msg)
    requires LogsTraced(plan, s) && PublishersKeep(s, path, m.cid, keys) && m.source in path && IsWorker(plan, m.source)
    requires v in s.nodes && p < |s.nodes[v].lanes| && m in s.nodes[v].lanes[p].log && Deps(plan, v) != []
    ensures keys <= m.data.Keys
  {
    var i :| 0 <= i < |s.nodes[v].lanes[p].log| && s.nodes[v].lanes[p].log[i] == m;
    assert Traced(plan, s, v, p, s.nodes[v].lanes[p].log[i]);
    var u := m.source;
    var a :| 0 <= a < |s.nodes[u].attempts| && Carries(plan, u, s.nodes[u].attempts[a], v, m);
  }

  lemma FanInKeeps(plan: Plan, s: World, path: seq<Name>, keys: set<string>, v: Name, a: nat, u: Name)
    requires Sound(plan) && Swarm.Inv(plan, s) && v in s.nodes && Cfg(plan, v).FanIn() && a < |s.nodes[v].attempts|
    requires u in path && u in Deps(plan, v) && IsWorker(plan, u)
             && PublishersKeep(s, path, s.nodes[v].attempts[a].cid, keys)
    ensures keys <= s.nodes[v].attempts[a].input.Keys
  {
    var cfg, n, t := Cfg(plan, v), s.nodes[v], s.nodes[v].attempts[a];
    assert Runner.Inv(cfg, n);
    assert AttemptOk(cfg, n.lanes, t);
    var i :| 0 <= i < |plan.nodes| && plan.nodes[i] == Find(plan.nodes, v);
    CountIsWhole(cfg, n.lanes, t.cid, t.received);
    assert u in Elements(cfg.deps);
    MessageKeeps(plan, s, path, keys, v, cfg.part(t.cid), Msg(t.cid, u, t.received[u]));
    MergeContents(t.received, t.input);
  }

  /** The message behind an attempt of a straight-through node. */
  lemma DirectOrigin(cfg: Config, n: Node, a: nat)
    requires !cfg.FanIn() && Runner.Inv(cfg, n) && a < |n.attempts|
    ensures var t := n.attempts[a];
            && t.lane < |n.lanes| && t.offset < |n.lanes[t.lane].log|
            && n.lanes[t.lane].log[t.offset].cid == t.cid && n.lanes[t.lane].log[t.offset].data == t.input
  {
    assert AttemptOk(cfg, n.lanes, n.attempts[a]);
  }

  lemma DirectKeeps(plan: Plan, s: World, path: seq<Name>, keys: set<string>, v: Name, a: nat)
    requires LogsTraced(plan, s) && v in s.nodes && !Cfg(plan, v).FanIn() && a < |s.nodes[v].attempts|
    requires Runner.Inv(Cfg(plan, v), s.nodes[v])
    requires PublishersKeep(s, path, s.nodes[v].attempts[a].cid, keys)
    requires if Deps(plan, v) == [] then EntersWith(s.injected, v, s.nodes[v].attempts[a].cid, keys)
             else Deps(plan, v)[0] in path && IsWorker(plan, Deps(plan, v)[0])
    ensures keys <= s.nodes[v].attempts[a].input.Keys
  {
    var n, t := s.nodes[v], s.nodes[v].attempts[a];
    DirectOrigin(Cfg(plan, v), n, a);
    var m := n.lanes[t.lane].log[t.offset];
    assert Traced(plan, s, v, t.lane, m);
    if Deps(plan, v) == [] {
      assert Injection(v, m).m.data == t.input;
    } else {
      assert m.source == Deps(plan, v)[0];
      MessageKeeps(plan, s, path, keys, v, t.lane, m);
    }
  }

  lemma PathAttemptKeeps(plan: Plan, s: World, path: seq<Name>, keys: set<string>, j: nat, a: nat)
    requires Sound(plan) && Swarm.Inv(plan, s) && IsPath(plan, path) && j < |path| && path[j] in s.nodes
    requires a < |s.nodes[path[j]].attempts|
    requires PublishersKeep(s, path, s.nodes[path[j]].attempts[a].cid, keys)
    requires EntersWith(s.injected, path[0], s.nodes[path[j]].attempts[a].cid, keys)
    ensures keys <= s.nodes[path[j]].attempts[a].input.Keys && keys <= s.nodes[path[j]].attempts[a].out.Keys
  {
    var v := path[j];
    assert Runner.Inv(Cfg(plan, v), s.nodes[v]);
    assert AttemptOk(Cfg(plan, v), s.nodes[v].lanes, s.nodes[v].attempts[a]);
    if Cfg(plan, v).FanIn() {
      FanInKeeps(plan, s, path, keys, v, a, path[j - 1]);
    } else {
      PathDirectKeeps(plan, s, path, keys, j, a);
    }
  }

  lemma PathDirectKeeps(plan: Plan, s: World, path: seq<Name>, keys: set<string>, j: nat, a: nat)
    requires LogsTraced(plan, s) && IsPath(plan, path) && j < |path| && path[j] in s.nodes
    requires !Cfg(plan, path[j]).FanIn() && a < |s.nodes[path[j]].attempts|
    requires Runner.Inv(Cfg(plan, path[j]), s.nodes[path[j]])
    requires PublishersKeep(s, path, s.nodes[path[j]].attempts[a].cid, keys)
    requires EntersWith(s.injected, path[0], s.nodes[path[j]].attempts[a].cid, keys)
    ensures keys <= s.nodes[path[j]].attempts[a].input.Keys
  {
    var v := path[j];
    assert Deps(plan, v) != [] ==> j > 0 && path[j - 1] == Deps(plan, v)[0];
    assert Deps(plan, v) == [] ==> j == 0;
    DirectKeeps(plan, s, path, keys, v, a);
  }

  lemma LaterPublishersKeep(plan: Plan, s: World, e: Event, t: World, path: seq<Name>, c: Cid, keys: set<string>)
    requires Later(s, t) && OnlyNewFrom(plan, s, e, t) && Keeps(s, path, c, keys)
    ensures PublishersKeep(t, path, c, keys)
  {
    forall v, a | v in path && v in t.nodes && 0 <= a < |t.nodes[v].attempts| && t.nodes[v].attempts[a].cid == c &&
                  t.nodes[v].attempts[a].landed != []
      ensures keys <= t.nodes[v].attempts[a].out.Keys
    {
      assert LaterNode(s.nodes[v], t.nodes[v]);
    }
  }

  lemma StateKeeps(plan: Plan, t: World, path: seq<Name>, c: Cid, keys: set<string>)
    requires Sound(plan) && Swarm.Inv(plan, t) && IsPath(plan, path)
    requires PublishersKeep(t, path, c, keys) && EntersWith(t.injected, path[0], c, keys)
    ensures Keeps(t, path, c, keys)
  {
    forall v, a | v in path && v in t.nodes && 0 <= a < |t.nodes[v].attempts| && t.nodes[v].attempts[a].cid == c
      ensures keys <= t.nodes[v].attempts[a].input.Keys && keys <= t.nodes[v].attempts[a].out.Keys
    {
      var j :| 0 <= j < |path| && path[j] == v;
      PathAttemptKeeps(plan, t, path, keys, j, a);
    }
  }

  lemma EnteredWithBefore(a: seq<Injection>, b: seq<Injection>, v: Name, c: Cid, keys: set<string>)
    requires a <= b && EntersWith(b, v, c, keys)
    ensures EntersWith(a, v, c, keys)
  {
    forall j | j in a && j.target == v && j.m.cid == c ensures keys <= j.m.data.Keys {
      MemberOfPrefix(j, a, b);
    }
  }

  /**
   No field disappears. Along any path of workers from a root, whatever the agents reply, every field all
   of the root's payloads for c have is in the data of every attempt on c at every node of the path.
   */
  lemma {:induction false} FieldsSurvive(plan: Plan, states: seq<World>, events: seq<Event>, i: nat,
                                         path: seq<Name>, c: Cid, keys: set<string>)
    requires Sound(plan) && WorldRun(plan, states, events) && i <= |events| && IsPath(plan, path)
    requires EntersWith(states[i].injected, path[0], c, keys)
    ensures forall v, a ::
              v in path && v in states[i].nodes && 0 <= a < |states[i].nodes[v].attempts|
                && states[i].nodes[v].attempts[a].cid == c
              ==> keys <= states[i].nodes[v].attempts[a].input.Keys && keys <= states[i].nodes[v].attempts[a].out.Keys
  {
    if i > 0 {
      var k: nat := i - 1;
      RunIsLater(plan, states, events, k);
      EnteredWithBefore(states[k].injected, states[i].injected, path[0], c, keys);
      FieldsSurvive(plan, states, events, k, path, c, keys);
      FieldsStep(plan, states, events, k, path, c, keys);
    }
  }

  lemma FieldsStep(plan: Plan, states: seq<World>, events: seq<Event>, i: nat, path: seq<Name>, c: Cid,
                   keys: set<string>)
    requires Sound(plan) && WorldRun(plan, states, events) && i < |events| && IsPath(plan, path)
    requires Keeps(states[i], path, c, keys) && EntersWith(states[i + 1].injected, path[0], c, keys)
    ensures Keeps(states[i + 1], path, c, keys)
  {
    RunIsLater(plan, states, events, i);
    LaterPublishersKeep(plan, states[i], events[i], states[i + 1], path, c, keys);
    WorldRunKeeps(plan, states, events, i + 1);
    StateKeeps(plan, states[i + 1], path, c, keys);
  }
}
