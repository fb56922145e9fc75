/** The reconcile loop against a cluster whose API calls may fail at any point. */
module Reconciler {
  import opened Types
  import opened Environment
  import opened Wiring

  datatype TopicDetail = TopicDetail(partitions: nat, replication: nat, compacted: bool)

  /** `identity` stands for everything an update leaves alone: metadata, owner and selector. */
  datatype Deployment = Deployment(replicas: int, template: Template, identity: Labels)

  datatype Labels = Labels(app: string, node: string, swarm: string)

  /** `apiKeySecret` names the secret from which the cluster fills LLM_API_KEY when the pod starts. */
  datatype Template = Template(image: string, labels: Labels, env: map<string, string>, apiKeySecret: Option<string>)

  datatype Cluster = Cluster(topics: map<Topic, TopicDetail>, deployments: map<string, Deployment>)

  // ---------- What is desired ----------

  function OutputTopics(spec: SwarmSpec, node: NodeSpec): seq<Topic> {
    var down := Downstream(spec.nodes, node.name);
    seq(|down|, i requires 0 <= i < |down| => InputTopic(spec.name, down[i]))
  }

  function JoinTopic(spec: SwarmSpec, node: NodeSpec): Topic {
    if |node.deps| > 1 then JoinStateTopic(spec.name, node.name) else ""
  }

  function BuildDeployment(
    spec: SwarmSpec, node: NodeSpec, inputTopic: Topic, outputTopics: seq<Topic>, joinStateTopic: Topic): Deployment
  {
    var labels := Labels("agentswarm", node.name, spec.name);
    var env := map[
      "KAFKA_BROKERS" := Join(spec.brokers),
      "NODE_NAME" := node.name,
      "INPUT_TOPIC" := inputTopic,
      "OUTPUT_TOPICS" := Join(outputTopics),
      "DEPENDS_ON" := Join(node.deps),
      "JOIN_STATE_TOPIC" := joinStateTopic,
      "ALLOWED_TOOLS" := Join(node.tools),
      "MCP_ENDPOINTS" := Join(Pairs(node.mcp)),
      "INSTRUCTIONS" := node.instructions,
      "LLM_BASE_URL" := node.llmBaseURL,
      "LLM_MODEL" := node.llmModel
    ];
    var template := Template(node.image, labels, env, node.apiKeySecret);
    Deployment(if node.replicas == 0 then 1 else node.replicas, template, labels)
  }

  /** The deployment a worker should have, in terms of the specification alone. */
  function Desired(spec: SwarmSpec, node: NodeSpec): Deployment {
    BuildDeployment(spec, node, InputTopic(spec.name, node.name), OutputTopics(spec, node), JoinTopic(spec, node))
  }

  ghost predicate TopicsOf(spec: SwarmSpec, topicOf: map<Name, Topic>) {
    && (forall n :: n in topicOf <==> n in Names(spec.nodes))
    && forall n :: n in topicOf ==> topicOf[n] == InputTopic(spec.name, n)
  }

  // ---------- Reconciling as a list of API operations ----------

  datatype Op = EnsureTopic(topic: Topic, compacted: bool) | ApplyDeployment(name: string, desired: Deployment)

  function RunOp(c: Cluster, op: Op): Cluster {
    match op
    case EnsureTopic(topic, compacted) =>
      if topic in c.topics then c else c.(topics := c.topics[topic := TopicDetail(3, 1, compacted)])
    case ApplyDeployment(name, desired) =>
      var d := if name in c.deployments then desired.(identity := c.deployments[name].identity) else desired;
      c.(deployments := c.deployments[name := d])
  }

  function RunOps(c: Cluster, ops: seq<Op>): Cluster {
    if ops == [] then c else RunOp(RunOps(c, ops[..|ops| - 1]), ops[|ops| - 1])
  }

  function InputOps(spec: SwarmSpec, node: NodeSpec): seq<Op> {
    [EnsureTopic(InputTopic(spec.name, node.name), false)]
  }

  function JoinOps(spec: SwarmSpec, node: NodeSpec): seq<Op> {
    if |node.deps| > 1 then [EnsureTopic(JoinStateTopic(spec.name, node.name), true)] else []
  }

  function DeploymentOps(spec: SwarmSpec, node: NodeSpec): seq<Op> {
    [ApplyDeployment(DeploymentName(spec.name, node.name), Desired(spec, node))]
  }

  function WorkerOps(spec: SwarmSpec, node: NodeSpec): seq<Op> {
    JoinOps(spec, node) + DeploymentOps(spec, node)
  }

  function RestOps(spec: SwarmSpec, node: NodeSpec): seq<Op> {
    if node.kind.HumanInTheLoop? then [] else WorkerOps(spec, node)
  }

  function NodeOps(spec: SwarmSpec, node: NodeSpec): seq<Op> {
    InputOps(spec, node) + RestOps(spec, node)
  }

  function Flat(lists: seq<seq<Op>>): seq<Op> {
    if lists == [] then [] else Flat(lists[..|lists| - 1]) + lists[|lists| - 1]
  }

  function OpLists(spec: SwarmSpec): seq<seq<Op>> {
    seq(|spec.nodes|, i requires 0 <= i < |spec.nodes| => NodeOps(spec, spec.nodes[i]))
  }

  function Ops(spec: SwarmSpec): seq<Op> {
    Flat(OpLists(spec))
  }

  function StoredOps(stored: Option<SwarmSpec>): seq<Op> {
    if stored.Some? then Ops(stored.value) else []
  }

  // ---------- The reconciler ----------

  /** Some operations of the list were carried out, in order, starting from c. */
  ghost predicate PartWay(c: Cluster, ops: seq<Op>, now: Cluster) {
    exists k :: 0 <= k <= |ops| && now == RunOps(c, ops[..k])
  }

  lemma {:induction false} RunOpsConcat(c: Cluster, a: seq<Op>, b: seq<Op>)
    ensures RunOps(c, a + b) == RunOps(RunOps(c, a), b)
  {
    if b == [] {
      assert a + b == a;
    } else {
      RunOpsConcat(c, a, b[..|b| - 1]);
      assert (a + b)[..|a + b| - 1] == a + b[..|b| - 1];
    }
  }

  lemma PartWayLater(c: Cluster, a: seq<Op>, b: seq<Op>, rest: seq<Op>, now: Cluster)
    requires PartWay(RunOps(c, a), b, now)
    ensures PartWay(c, a + b + rest, now)
  {
    var k :| 0 <= k <= |b| && now == RunOps(RunOps(c, a), b[..k]);
    RunOpsConcat(c, a, b[..k]);
    assert (a + b + rest)[..|a| + k] == a + b[..k];
  }

  /** Being part of the way through a, or through b after all of a, is being part of the way through both. */
  lemma PartWayFirst(c: Cluster, a: seq<Op>, b: seq<Op>, now: Cluster)
    requires PartWay(c, a, now)
    ensures PartWay(c, a + b, now)
  {
    var k :| 0 <= k <= |a| && now == RunOps(c, a[..k]);
    assert (a + b)[..k] == a[..k];
  }

  lemma PartWayThen(c: Cluster, a: seq<Op>, b: seq<Op>, now: Cluster)
    requires PartWay(RunOps(c, a), b, now)
    ensures PartWay(c, a + b, now) && RunOps(c, a + b) == RunOps(RunOps(c, a), b)
  {
    RunOpsConcat(c, a, b);
    PartWayLater(c, a, b, [], now);
    assert a + b + [] == a + b;
  }

  lemma Untouched(c: Cluster, ops: seq<Op>)
    ensures c == RunOps(c, ops[..0]) && PartWay(c, ops, c)
  {
    assert c == RunOps(c, ops[..0]);
  }

  /** Doing operation k, or nothing, after the first k of them. */
  lemma Stepped(c: Cluster, ops: seq<Op>, k: nat, now: Cluster)
    requires k < |ops|
    requires now == RunOps(c, ops[..k]) || now == RunOp(RunOps(c, ops[..k]), ops[k])
    ensures PartWay(c, ops, now)
    ensures RunOps(c, ops[..k + 1]) == RunOp(RunOps(c, ops[..k]), ops[k])
    ensures ops[..|ops|] == ops
  {
    assert ops[..k + 1][..k] == ops[..k];
    if now == RunOps(c, ops[..k]) {
    } else {
      assert now == RunOps(c, ops[..k + 1]);
    }
  }

  class AgentSwarmReconciler {
    var topics: map<Topic, TopicDetail>
    var deployments: map<string, Deployment>

    ghost function State(): Cluster
      reads this
    {
      Cluster(topics, deployments)
    }

    /** Lists the topics, and creates this one if it is missing; either call may fail, with or without effect. */
    method EnsureTopic(topic: Topic, compacted: bool) returns (ok: bool)
      modifies this`topics
      ensures ok ==> State() == RunOp(old(State()), Op.EnsureTopic(topic, compacted))
      ensures State() == old(State()) || State() == RunOp(old(State()), Op.EnsureTopic(topic, compacted))
    {
      var listed: bool := *;
      if !listed {
        return false;
      }
      ok := true;
      if topic !in topics {
        var landed: bool := *;
        ok := *;
        if landed || ok {
          topics := topics[topic := TopicDetail(3, 1, compacted)];
        }
      }
    }

    /** Creates the deployment, or replaces the replicas and template of the one that is there. */
    method ReconcileDeployment(name: string, desired: Deployment) returns (ok: bool)
      modifies this`deployments
      ensures ok ==> State() == RunOp(old(State()), ApplyDeployment(name, desired))
      ensures State() == old(State()) || State() == RunOp(old(State()), ApplyDeployment(name, desired))
    {
      var got: bool := *;
      if !got {
        return false;
      }
      var landed: bool := *;
      ok := *;
      if landed || ok {
        if name !in deployments {
          deployments := deployments[name := desired];
        } else {
          var found := deployments[name];
          deployments := deployments[name := found.(replicas := desired.replicas, template := desired.template)];
        }
      }
    }

    /** The output topics of a node: the input topics of the nodes wired below it. */
    method CollectOutputs(spec: SwarmSpec, node: NodeSpec, topicOf: map<Name, Topic>, downstream: map<Name, seq<Name>>)
      returns (outputTopics: seq<Topic>)
      requires TopicsOf(spec, topicOf)
      requires Entry(downstream, node.name) == Downstream(spec.nodes, node.name)
      ensures outputTopics == OutputTopics(spec, node)
    {
      var names := Entry(downstream, node.name);
      outputTopics := [];
      for i := 0 to |names|
        invariant |outputTopics| == i
        invariant forall k :: 0 <= k < i ==> outputTopics[k] == InputTopic(spec.name, names[k])
      {
        DownstreamIsDeclared(spec.nodes, node.name, names[i]);
        outputTopics := outputTopics + [topicOf[names[i]]];
      }
    }

    /** The join-state topic of a worker, if it joins; the empty name otherwise. */
    method ReconcileJoinTopic(spec: SwarmSpec, node: NodeSpec) returns (joinStateTopic: Topic, ok: bool)
      modifies this`topics
      ensures ok ==> State() == RunOps(old(State()), JoinOps(spec, node))
      ensures ok ==> joinStateTopic == JoinTopic(spec, node)
      ensures PartWay(old(State()), JoinOps(spec, node), State())
    {
      ghost var start := State();
      joinStateTopic, ok := "", true;
      Untouched(start, JoinOps(spec, node));
      if |node.deps| > 1 {
        joinStateTopic := JoinStateTopic(spec.name, node.name);
        ok := EnsureTopic(joinStateTopic, true);
        Stepped(start, JoinOps(spec, node), 0, State());
      }
    }

    /** What a worker needs beyond its input topic: its join-state topic and its deployment. */
    method ReconcileWorker(
      spec: SwarmSpec, node: NodeSpec, inputTopic: Topic, topicOf: map<Name, Topic>, downstream: map<Name, seq<Name>>)
      returns (ok: bool)
      requires TopicsOf(spec, topicOf) && inputTopic == InputTopic(spec.name, node.name)
      requires Entry(downstream, node.name) == Downstream(spec.nodes, node.name)
      modifies this
      ensures ok ==> State() == RunOps(old(State()), WorkerOps(spec, node))
      ensures PartWay(old(State()), WorkerOps(spec, node), State())
    {
      ghost var start := State();
      var outputTopics := CollectOutputs(spec, node, topicOf, downstream);
      var joinStateTopic;
      joinStateTopic, ok := ReconcileJoinTopic(spec, node);
      PartWayFirst(start, JoinOps(spec, node), DeploymentOps(spec, node), State());
      if !ok {
        return;
      }
      ghost var joined := State();
      Untouched(joined, DeploymentOps(spec, node));
      var desired := BuildDeployment(spec, node, inputTopic, outputTopics, joinStateTopic);
      ok := ReconcileDeployment(DeploymentName(spec.name, node.name), desired);
      Stepped(joined, DeploymentOps(spec, node), 0, State());
      PartWayThen(start, JoinOps(spec, node), DeploymentOps(spec, node), State());
    }

    /** One node: its input topic, and for a worker its join-state topic and its deployment. */
    method ReconcileNode(spec: SwarmSpec, node: NodeSpec, topicOf: map<Name, Topic>, downstream: map<Name, seq<Name>>)
      returns (ok: bool)
      requires TopicsOf(spec, topicOf) && node.name in topicOf
      requires Entry(downstream, node.name) == Downstream(spec.nodes, node.name)
      modifies this
      ensures ok ==> State() == RunOps(old(State()), NodeOps(spec, node))
      ensures PartWay(old(State()), NodeOps(spec, node), State())
    {
      ghost var start := State();
      var inputTopic := topicOf[node.name];
      Untouched(start, InputOps(spec, node));
      ok := EnsureTopic(inputTopic, false);
      Stepped(start, InputOps(spec, node), 0, State());
      PartWayFirst(start, InputOps(spec, node), RestOps(spec, node), State());
      if !ok || node.kind.HumanInTheLoop? {
        assert node.kind.HumanInTheLoop? ==> NodeOps(spec, node) == InputOps(spec, node);
        return;
      }
      ok := ReconcileWorker(spec, node, inputTopic, topicOf, downstream);
      PartWayThen(start, InputOps(spec, node), RestOps(spec, node), State());
    }

    /**
     A successful run carries out every operation of the stored swarm, or none if it was deleted meanwhile; a
     failed one stops part of the way.
     */
    method Reconcile(stored: Option<SwarmSpec>) returns (ok: bool)
      modifies this
      ensures ok ==> State() == RunOps(old(State()), StoredOps(stored))
      ensures PartWay(old(State()), StoredOps(stored), State())
    {
      ghost var start := State();
      Untouched(start, StoredOps(stored));
      var fetched: bool := *;
      if !fetched {
        return false;
      }
      if stored.None? {
        return true;
      }
      var connected: bool := *;
      if !connected {
        return false;
      }
      ok := ReconcileSwarm(stored.value);
    }

    /** One turn of the node loop, which has carried out the operations of the nodes before i. */
    method ReconcileNext(spec: SwarmSpec, i: nat, topicOf: map<Name, Topic>, downstream: map<Name, seq<Name>>,
                         ghost start: Cluster)
      returns (ok: bool)
      requires i < |spec.nodes| && TopicsOf(spec, topicOf)
      requires Entry(downstream, spec.nodes[i].name) == Downstream(spec.nodes, spec.nodes[i].name)
      requires State() == RunOps(start, Flat(OpLists(spec)[..i]))
      modifies this
      ensures ok ==> State() == RunOps(start, Flat(OpLists(spec)[..i + 1]))
      ensures PartWay(start, Flat(OpLists(spec)), State())
    {
      ghost var reached := State();
      assert spec.nodes[i].name == Names(spec.nodes)[i];
      ok := ReconcileNode(spec, spec.nodes[i], topicOf, downstream);
      ListDone(OpLists(spec), i, start, reached, State());
    }

    /** The node loop, once the swarm is fetched and the brokers are connected. */
    method ReconcileSwarm(spec: SwarmSpec) returns (ok: bool)
      modifies this
      ensures ok ==> State() == RunOps(old(State()), Ops(spec))
      ensures PartWay(old(State()), Ops(spec), State())
    {
      ghost var start, lists := State(), OpLists(spec);
      Untouched(start, Flat(lists));
      var topicOf := Wiring.InputTopics(spec);
      var downstream := DownstreamOf(spec.nodes);
      Untouched(start, Flat([]));
      for i := 0 to |spec.nodes|
        invariant State() == RunOps(start, Flat(lists[..i])) && PartWay(start, Flat(lists), State())
      {
        ok := ReconcileNext(spec, i, topicOf, downstream, start);
        if !ok {
          return;
        }
      }
      assert lists[..|lists|] == lists;
      ok := true;
    }
  }

  lemma {:induction false} FlatPrefix(lists: seq<seq<Op>>, i: nat) returns (rest: seq<Op>)
    requires i <= |lists|
    ensures Flat(lists) == Flat(lists[..i]) + rest
  {
    if i == |lists| {
      assert lists[..i] == lists;
      rest := [];
    } else {
      var init := lists[..|lists| - 1];
      rest := FlatPrefix(init, i);
      assert init[..i] == lists[..i];
      rest := rest + lists[|lists| - 1];
    }
  }

  /** Carrying out part of list i is carrying out part of all of them. */
  lemma ListDone(lists: seq<seq<Op>>, i: nat, start: Cluster, reached: Cluster, now: Cluster)
    requires i < |lists| && reached == RunOps(start, Flat(lists[..i])) && PartWay(reached, lists[i], now)
    ensures PartWay(start, Flat(lists), now)
    ensures RunOps(start, Flat(lists[..i + 1])) == RunOps(reached, lists[i])
  {
    assert lists[..i + 1][..i] == lists[..i];
    RunOpsConcat(start, Flat(lists[..i]), lists[i]);
    var rest := FlatPrefix(lists, i + 1);
    PartWayLater(start, Flat(lists[..i]), lists[i], rest, now);
  }

  // ---------- Retries converge ----------

  function FirstEnsure(ops: seq<Op>, t: Topic): Option<TopicDetail> {
    if ops == [] then None
    else
      var before := FirstEnsure(ops[..|ops| - 1], t);
      var op := ops[|ops| - 1];
      if before.None? && op.EnsureTopic? && op.topic == t then Some(TopicDetail(3, 1, op.compacted)) else before
  }

  function FirstApply(ops: seq<Op>, d: string): Option<Deployment> {
    if ops == [] then None
    else
      var before := FirstApply(ops[..|ops| - 1], d);
      var op := ops[|ops| - 1];
      if before.None? && op.ApplyDeployment? && op.name == d then Some(op.desired) else before
  }

  function LastApply(ops: seq<Op>, d: string): Option<Deployment> {
    if ops == [] then None
    else
      var op := ops[|ops| - 1];
      if op.ApplyDeployment? && op.name == d then Some(op.desired) else LastApply(ops[..|ops| - 1], d)
  }

  /** A topic that exists is never touched; otherwise the first operation that names it decides. */
  lemma {:induction false} TopicsAfter(c: Cluster, ops: seq<Op>, t: Topic)
    ensures Lookup(RunOps(c, ops).topics, t) == if t in c.topics then Some(c.topics[t]) else FirstEnsure(ops, t)
  {
    if ops != [] {
      TopicsAfter(c, ops[..|ops| - 1], t);
    }
  }

  /** Replicas and template come from the last operation, the rest from whoever created the deployment. */
  lemma {:induction false} DeploymentsAfter(c: Cluster, ops: seq<Op>, d: string)
    ensures LastApply(ops, d).Some? <==> FirstApply(ops, d).Some?
    ensures Lookup(RunOps(c, ops).deployments, d) ==
            if LastApply(ops, d).None? then Lookup(c.deployments, d)
            else Some(LastApply(ops, d).value.(
              identity := if d in c.deployments then c.deployments[d].identity else FirstApply(ops, d).value.identity))
  {
    if ops != [] {
      DeploymentsAfter(c, ops[..|ops| - 1], d);
    }
  }

  lemma {:induction false} FirstsOfPrefix(ops: seq<Op>, k: nat, x: string)
    requires k <= |ops|
    ensures FirstEnsure(ops[..k], x).Some? ==> FirstEnsure(ops, x) == FirstEnsure(ops[..k], x)
    ensures FirstApply(ops[..k], x).Some? ==> FirstApply(ops, x) == FirstApply(ops[..k], x)
  {
    if k < |ops| {
      FirstsOfPrefix(ops[..|ops| - 1], k, x);
      assert ops[..|ops| - 1][..k] == ops[..k];
    } else {
      assert ops[..k] == ops;
    }
  }

  /** A full run after a partial one leaves exactly what the full run alone would have left. */
  lemma PartialThenFull(c: Cluster, ops: seq<Op>, now: Cluster)
    requires PartWay(c, ops, now)
    ensures RunOps(now, ops) == RunOps(c, ops)
  {
    var k :| 0 <= k <= |ops| && now == RunOps(c, ops[..k]);
    var twice, once := RunOps(now, ops), RunOps(c, ops);
    forall t ensures Lookup(twice.topics, t) == Lookup(once.topics, t) {
      TopicsAfter(c, ops[..k], t);
      TopicsAfter(now, ops, t);
      TopicsAfter(c, ops, t);
      FirstsOfPrefix(ops, k, t);
    }
    forall d ensures Lookup(twice.deployments, d) == Lookup(once.deployments, d) {
      DeploymentsAfter(c, ops[..k], d);
      DeploymentsAfter(now, ops, d);
      DeploymentsAfter(c, ops, d);
      FirstsOfPrefix(ops, k, d);
    }
    SameMap(twice.topics, once.topics);
    SameMap(twice.deployments, once.deployments);
  }

  /**
   Whatever attempts came before, each stopping anywhere, one success leaves what a single clean run would
   have left, and another run changes nothing.
   */
  lemma {:induction false} RetriesConverge(spec: SwarmSpec, states: seq<Cluster>)
    requires |states| > 0
    requires forall i :: 0 <= i < |states| - 1 ==> PartWay(states[i], Ops(spec), states[i + 1])
    ensures RunOps(states[|states| - 1], Ops(spec)) == RunOps(states[0], Ops(spec))
    ensures RunOps(RunOps(states[0], Ops(spec)), Ops(spec)) == RunOps(states[0], Ops(spec))
  {
    var ops := Ops(spec);
    if |states| > 1 {
      var init := states[..|states| - 1];
      RetriesConverge(spec, init);
      PartialThenFull(states[|states| - 2], ops, states[|states| - 1]);
    } else {
      assert ops[..|ops|] == ops;
      PartialThenFull(states[0], ops, RunOps(states[0], ops));
    }
  }

  /** No attempt, finished or not, alters or removes a topic that existed. */
  lemma TopicsArePreserved(spec: SwarmSpec, c: Cluster, now: Cluster, t: Topic)
    requires PartWay(c, Ops(spec), now) && t in c.topics
    ensures t in now.topics && now.topics[t] == c.topics[t]
  {
    var k :| 0 <= k <= |Ops(spec)| && now == RunOps(c, Ops(spec)[..k]);
    TopicsAfter(c, Ops(spec)[..k], t);
  }
}
