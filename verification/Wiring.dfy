/** How the reconciler turns `dependsOn` lists into topics and output lists. */
module Wiring {
  import opened Types
  import opened Environment

  datatype Kind = WorkerNode | HumanInTheLoop

  datatype NodeSpec = NodeSpec(
    name: Name, kind: Kind, image: string, instructions: string, deps: seq<Name>, replicas: int,
    mcp: seq<Endpoint>, tools: seq<string>, llmBaseURL: string, llmModel: string,
    apiKeySecret: Option<string>)

  datatype SwarmSpec = SwarmSpec(name: string, brokers: seq<string>, nodes: seq<NodeSpec>)

  function Names(nodes: seq<NodeSpec>): seq<Name> {
    seq(|nodes|, i requires 0 <= i < |nodes| => nodes[i].name)
  }

  predicate UniqueNames(nodes: seq<NodeSpec>) {
    forall i, j :: 0 <= i < j < |nodes| ==> nodes[i].name != nodes[j].name
  }

  ghost predicate DuplicateFree(nodes: seq<NodeSpec>) {
    forall i :: 0 <= i < |nodes| ==> Distinct(nodes[i].deps)
  }

  // ---------- Topic names ----------

  function InputTopic(swarm: string, node: Name): Topic {
    swarm + "-" + node + "-input"
  }

  function JoinStateTopic(swarm: string, node: Name): Topic {
    swarm + "-" + node + "-joinstate"
  }

  function DeploymentName(swarm: string, node: Name): string {
    swarm + "-" + node
  }

  lemma MiddleIsUnique(pre: string, a: string, b: string, post: string)
    requires pre + a + post == pre + b + post
    ensures a == b
  {
    assert |a| == |b|;
    forall i | 0 <= i < |a| ensures a[i] == b[i] {
      assert (pre + a + post)[|pre| + i] == a[i];
      assert (pre + b + post)[|pre| + i] == b[i];
    }
  }

  /** Within one swarm no two nodes, and no two uses, share a topic or a deployment. */
  lemma NamesAreDistinct(swarm: string, a: Name, b: Name)
    ensures InputTopic(swarm, a) == InputTopic(swarm, b) ==> a == b
    ensures JoinStateTopic(swarm, a) == JoinStateTopic(swarm, b) ==> a == b
    ensures DeploymentName(swarm, a) == DeploymentName(swarm, b) ==> a == b
    ensures InputTopic(swarm, a) != JoinStateTopic(swarm, b)
  {
    if InputTopic(swarm, a) == InputTopic(swarm, b) {
      MiddleIsUnique(swarm + "-", a, b, "-input");
    }
    if JoinStateTopic(swarm, a) == JoinStateTopic(swarm, b) {
      MiddleIsUnique(swarm + "-", a, b, "-joinstate");
    }
    if DeploymentName(swarm, a) == DeploymentName(swarm, b) {
      assert swarm + "-" + a + "" == DeploymentName(swarm, a) && swarm + "-" + b + "" == DeploymentName(swarm, b);
      MiddleIsUnique(swarm + "-", a, b, "");
    }
    var x, y := InputTopic(swarm, a), JoinStateTopic(swarm, b);
    assert x[|x| - 2] == 'u' && y[|y| - 2] == 't';
  }

  /** The same node in two swarms has its own topics and deployment in each. */
  lemma SwarmsAreDistinct(a: string, b: string, node: Name)
    ensures DeploymentName(a, node) == DeploymentName(b, node) ==> a == b
    ensures InputTopic(a, node) == InputTopic(b, node) ==> a == b
    ensures JoinStateTopic(a, node) == JoinStateTopic(b, node) ==> a == b
  {
    SuffixIsUnique(a, b, "-" + node);
    SuffixIsUnique(a, b, "-" + node + "-input");
    SuffixIsUnique(a, b, "-" + node + "-joinstate");
    assert a + ("-" + node) == DeploymentName(a, node) && b + ("-" + node) == DeploymentName(b, node);
    assert a + ("-" + node + "-input") == InputTopic(a, node) && b + ("-" + node + "-input") == InputTopic(b, node);
    assert a + ("-" + node + "-joinstate") == JoinStateTopic(a, node);
    assert b + ("-" + node + "-joinstate") == JoinStateTopic(b, node);
  }

  lemma SuffixIsUnique(a: string, b: string, post: string)
    ensures a + post == b + post ==> a == b
  {
    if a + post == b + post {
      assert |a| == |b|;
      assert (a + post)[..|a|] == a && (b + post)[..|b|] == b;
    }
  }

  /** Names are glued with a dash they may hold themselves, so two swarms can still meet on different nodes. */
  lemma SwarmsCanMeet()
    ensures DeploymentName("a-b", "c") == "a-b-c" == DeploymentName("a", "b-c")
    ensures InputTopic("a-b", "c") == "a-b-c-input" == InputTopic("a", "b-c")
    ensures JoinStateTopic("a-b", "c") == "a-b-c-joinstate" == JoinStateTopic("a", "b-c")
  {
  }

  // ---------- Downstream lists ----------

  /** One entry for every time u occurs in the list. */
  function Hits(deps: seq<Name>, u: Name, v: Name): seq<Name> {
    if deps == [] then []
    else Hits(deps[..|deps| - 1], u, v) + if deps[|deps| - 1] == u then [v] else []
  }

  function Downstream(nodes: seq<NodeSpec>, u: Name): seq<Name> {
    if nodes == [] then []
    else
      var last := nodes[|nodes| - 1];
      Downstream(nodes[..|nodes| - 1], u) + Hits(last.deps, u, last.name)
  }

  function Entry(m: map<Name, seq<Name>>, u: Name): seq<Name> {
    if u in m then m[u] else []
  }

  method InputTopics(spec: SwarmSpec) returns (topics: map<Name, Topic>)
    ensures forall n :: n in topics <==> n in Names(spec.nodes)
    ensures forall n :: n in topics ==> topics[n] == InputTopic(spec.name, n)
  {
    topics := map[];
    for i := 0 to |spec.nodes|
      invariant forall n :: n in topics <==> n in Names(spec.nodes[..i])
      invariant forall n :: n in topics ==> topics[n] == InputTopic(spec.name, n)
    {
      assert Names(spec.nodes[..i + 1]) == Names(spec.nodes[..i]) + [spec.nodes[i].name];
      topics := topics[spec.nodes[i].name := InputTopic(spec.name, spec.nodes[i].name)];
    }
    assert spec.nodes[..|spec.nodes|] == spec.nodes;
  }

  lemma HitsStep(downstream: map<Name, seq<Name>>, base: seq<Name>, deps: seq<Name>, j: nat, v: Name, u: Name)
    requires j < |deps| && Entry(downstream, u) == base + Hits(deps[..j], u, v)
    ensures Entry(downstream[deps[j] := Entry(downstream, deps[j]) + [v]], u) == base + Hits(deps[..j + 1], u, v)
  {
    assert deps[..j + 1][..j] == deps[..j];
  }

  method DownstreamOf(nodes: seq<NodeSpec>) returns (downstream: map<Name, seq<Name>>)
    ensures forall u :: Entry(downstream, u) == Downstream(nodes, u)
  {
    downstream := map[];
    for i := 0 to |nodes|
      invariant forall u :: Entry(downstream, u) == Downstream(nodes[..i], u)
    {
      var node := nodes[i];
      for j := 0 to |node.deps|
        invariant forall u :: Entry(downstream, u) == Downstream(nodes[..i], u) + Hits(node.deps[..j], u, node.name)
      {
        var dep := node.deps[j];
        forall u {
          HitsStep(downstream, Downstream(nodes[..i], u), node.deps, j, node.name, u);
        }
        downstream := downstream[dep := Entry(downstream, dep) + [node.name]];
      }
      assert node.deps[..|node.deps|] == node.deps;
      assert nodes[..i + 1][..i] == nodes[..i];
    }
    assert nodes[..|nodes|] == nodes;
  }

  // ---------- The wiring is the transpose of dependsOn ----------

  lemma {:induction false} HitsCount(deps: seq<Name>, u: Name, v: Name)
    ensures |Hits(deps, u, v)| == multiset(deps)[u]
  {
    if deps != [] {
      var init, last := deps[..|deps| - 1], deps[|deps| - 1];
      HitsCount(init, u, v);
      OneMoreCount(init, last, u);
      assert deps == init + [last];
    }
  }

  lemma OneMoreCount(init: seq<Name>, last: Name, u: Name)
    ensures multiset(init + [last])[u] == multiset(init)[u] + if last == u then 1 else 0
  {
  }

  lemma {:induction false} HitsAreAll(deps: seq<Name>, u: Name, v: Name, k: nat)
    requires k < |Hits(deps, u, v)|
    ensures Hits(deps, u, v)[k] == v
  {
    var init := deps[..|deps| - 1];
    if k < |Hits(init, u, v)| {
      HitsAreAll(init, u, v, k);
    }
  }

  lemma {:induction false} SameEntryCount(xs: seq<Name>, v: Name, w: Name)
    requires forall k :: 0 <= k < |xs| ==> xs[k] == v
    ensures multiset(xs)[w] == if w == v then |xs| else 0
  {
    if xs != [] {
      SameEntryCount(xs[..|xs| - 1], v, w);
      assert xs == xs[..|xs| - 1] + [xs[|xs| - 1]];
    }
  }

  lemma HitsMultiplicity(deps: seq<Name>, u: Name, v: Name, w: Name)
    ensures multiset(Hits(deps, u, v))[w] == if w == v then multiset(deps)[u] else 0
  {
    HitsCount(deps, u, v);
    forall k | 0 <= k < |Hits(deps, u, v)| ensures Hits(deps, u, v)[k] == v {
      HitsAreAll(deps, u, v, k);
    }
    SameEntryCount(Hits(deps, u, v), v, w);
  }

  /** Only declared nodes are ever wired below anything. */
  lemma {:induction false} DownstreamIsDeclared(nodes: seq<NodeSpec>, u: Name, v: Name)
    ensures v in Downstream(nodes, u) ==> v in Names(nodes)
  {
    if nodes != [] {
      var init, last := nodes[..|nodes| - 1], nodes[|nodes| - 1];
      DownstreamIsDeclared(init, u, v);
      forall k | 0 <= k < |Hits(last.deps, u, last.name)| ensures Hits(last.deps, u, last.name)[k] == last.name {
        HitsAreAll(last.deps, u, last.name, k);
      }
      assert Names(nodes) == Names(init) + [last.name];
    }
  }

  /** How often w is wired below u. */
  ghost function Times(nodes: seq<NodeSpec>, u: Name, w: Name): nat {
    multiset(Downstream(nodes, u))[w]
  }

  lemma TimesStep(nodes: seq<NodeSpec>, u: Name, w: Name)
    requires nodes != []
    ensures var last := nodes[|nodes| - 1];
            Times(nodes, u, w) ==
            Times(nodes[..|nodes| - 1], u, w) + if last.name == w then multiset(last.deps)[u] else 0
  {
    var last := nodes[|nodes| - 1];
    HitsMultiplicity(last.deps, u, last.name, w);
  }

  lemma {:induction false} UndeclaredNever(nodes: seq<NodeSpec>, u: Name, w: Name)
    requires forall i :: 0 <= i < |nodes| ==> nodes[i].name != w
    ensures Times(nodes, u, w) == 0
  {
    if nodes != [] {
      TimesStep(nodes, u, w);
      UndeclaredNever(nodes[..|nodes| - 1], u, w);
    }
  }

  /** v occurs in u's outputs as often as u occurs in v's dependsOn. */
  lemma {:induction false} TransposeMultiplicity(nodes: seq<NodeSpec>, u: Name, i: nat)
    requires UniqueNames(nodes) && i < |nodes|
    ensures multiset(Downstream(nodes, u))[nodes[i].name] == multiset(nodes[i].deps)[u]
  {
    var init := nodes[..|nodes| - 1];
    TimesStep(nodes, u, nodes[i].name);
    if i < |init| {
      TransposeMultiplicity(init, u, i);
    } else {
      UndeclaredNever(init, u, nodes[i].name);
    }
  }

  ghost function Dependents(nodes: seq<NodeSpec>, u: Name): seq<Name> {
    if nodes == [] then []
    else
      var last := nodes[|nodes| - 1];
      Dependents(nodes[..|nodes| - 1], u) + if u in last.deps then [last.name] else []
  }

  lemma {:induction false} HitsOnce(deps: seq<Name>, u: Name, v: Name)
    requires Distinct(deps)
    ensures Hits(deps, u, v) == if u in deps then [v] else []
  {
    if deps != [] {
      var init, last := deps[..|deps| - 1], deps[|deps| - 1];
      HitsOnce(init, u, v);
      assert deps == init + [last];
      assert u in deps <==> u in init || u == last;
      assert last !in init;
    }
  }

  /** With duplicate-free dependsOn, u's outputs are its dependents in declaration order. */
  lemma {:induction false} OutputsAreDependents(nodes: seq<NodeSpec>, u: Name)
    requires DuplicateFree(nodes)
    ensures Downstream(nodes, u) == Dependents(nodes, u)
  {
    if nodes != [] {
      OutputsAreDependents(nodes[..|nodes| - 1], u);
      HitsOnce(nodes[|nodes| - 1].deps, u, nodes[|nodes| - 1].name);
    }
  }

  lemma {:induction false} DependentsExact(nodes: seq<NodeSpec>, u: Name)
    requires UniqueNames(nodes)
    ensures forall v :: v in Dependents(nodes, u) <==>
              exists i :: 0 <= i < |nodes| && nodes[i].name == v && u in nodes[i].deps
    ensures Distinct(Dependents(nodes, u))
  {
    if nodes != [] {
      var init, last := nodes[..|nodes| - 1], nodes[|nodes| - 1];
      DependentsExact(init, u);
      forall v
        ensures v in Dependents(nodes, u) <==>
                exists i :: 0 <= i < |nodes| && nodes[i].name == v && u in nodes[i].deps
      {
        if i :| 0 <= i < |nodes| && nodes[i].name == v && u in nodes[i].deps {
          assert i < |init| ==> init[i] == nodes[i];
        }
        if v in Dependents(init, u) {
          var i :| 0 <= i < |init| && init[i].name == v && u in init[i].deps;
          assert nodes[i] == init[i];
        }
      }
      assert forall i :: 0 <= i < |init| ==> init[i] == nodes[i] && init[i].name != last.name;
      assert last.name !in Dependents(init, u);
    }
  }

  /** v reads u's results exactly when u is in v's dependsOn, and each list names a dependent once. */
  lemma WiringIsTranspose(spec: SwarmSpec, u: Name, v: NodeSpec)
    requires UniqueNames(spec.nodes) && DuplicateFree(spec.nodes) && v in spec.nodes
    ensures v.name in Downstream(spec.nodes, u) <==> u in v.deps
    ensures Distinct(Downstream(spec.nodes, u))
    ensures forall w :: w in Downstream(spec.nodes, u) ==> w in Names(spec.nodes)
  {
    OutputsAreDependents(spec.nodes, u);
    DependentsExact(spec.nodes, u);
    forall w | w in Downstream(spec.nodes, u) ensures w in Names(spec.nodes) {
      var i :| 0 <= i < |spec.nodes| && spec.nodes[i].name == w && u in spec.nodes[i].deps;
      assert Names(spec.nodes)[i] == w;
    }
  }

  // ---------- Edges are conserved ----------

  ghost function TotalOutputs(us: seq<Name>, nodes: seq<NodeSpec>): nat {
    if us == [] then 0 else TotalOutputs(us[..|us| - 1], nodes) + |Downstream(nodes, us[|us| - 1])|
  }

  ghost function DeclaredIn(deps: seq<Name>, names: set<Name>): nat {
    if deps == [] then 0
    else DeclaredIn(deps[..|deps| - 1], names) + if deps[|deps| - 1] in names then 1 else 0
  }

  ghost function TotalDeps(nodes: seq<NodeSpec>, names: set<Name>): nat {
    if nodes == [] then 0 else TotalDeps(nodes[..|nodes| - 1], names) + DeclaredIn(nodes[|nodes| - 1].deps, names)
  }

  ghost function Occurrences(us: seq<Name>, deps: seq<Name>): nat {
    if us == [] then 0 else Occurrences(us[..|us| - 1], deps) + multiset(deps)[us[|us| - 1]]
  }

  lemma {:induction false} OccurrencesOfOneMore(us: seq<Name>, deps: seq<Name>, d: Name)
    requires Distinct(us)
    ensures Occurrences(us, deps + [d]) == Occurrences(us, deps) + if d in us then 1 else 0
  {
    if us != [] {
      OccurrencesOfOneMore(us[..|us| - 1], deps, d);
      assert us == us[..|us| - 1] + [us[|us| - 1]];
    }
  }

  lemma {:induction false} NoOccurrences(us: seq<Name>)
    ensures Occurrences(us, []) == 0
  {
    if us != [] {
      NoOccurrences(us[..|us| - 1]);
    }
  }

  lemma {:induction false} OccurrencesAreDeclared(us: seq<Name>, deps: seq<Name>)
    requires Distinct(us)
    ensures Occurrences(us, deps) == DeclaredIn(deps, Elements(us))
  {
    if deps == [] {
      NoOccurrences(us);
    } else {
      var init, d := deps[..|deps| - 1], deps[|deps| - 1];
      OccurrencesAreDeclared(us, init);
      OccurrencesOfOneMore(us, init, d);
      assert deps == init + [d];
    }
  }

  lemma {:induction false} OutputsSplit(us: seq<Name>, init: seq<NodeSpec>, last: NodeSpec)
    ensures TotalOutputs(us, init + [last]) == TotalOutputs(us, init) + Occurrences(us, last.deps)
  {
    assert (init + [last])[..|init|] == init;
    if us != [] {
      OutputsSplit(us[..|us| - 1], init, last);
      HitsCount(last.deps, us[|us| - 1], last.name);
    }
  }

  lemma {:induction false} NoOutputs(us: seq<Name>)
    ensures TotalOutputs(us, []) == 0
  {
    if us != [] {
      NoOutputs(us[..|us| - 1]);
    }
  }

  lemma {:induction false} OutputsAreDeps(us: seq<Name>, nodes: seq<NodeSpec>)
    requires Distinct(us)
    ensures TotalOutputs(us, nodes) == TotalDeps(nodes, Elements(us))
  {
    if nodes == [] {
      NoOutputs(us);
    } else {
      var init, last := nodes[..|nodes| - 1], nodes[|nodes| - 1];
      OutputsAreDeps(us, init);
      assert nodes == init + [last];
      OutputsSplit(us, init, last);
      OccurrencesAreDeclared(us, last.deps);
    }
  }

  /** Over the declared nodes, output entries number exactly the dependsOn entries naming a declared node. */
  lemma EdgesAreConserved(spec: SwarmSpec)
    requires UniqueNames(spec.nodes)
    ensures TotalOutputs(Names(spec.nodes), spec.nodes) == TotalDeps(spec.nodes, Elements(Names(spec.nodes)))
  {
    OutputsAreDeps(Names(spec.nodes), spec.nodes);
  }
}
