/** From the spec, through the deployed environment, to the configuration each runner parses back. */
module Deployed {
  import opened Types
  import opened Environment
  import opened Wiring
  import opened Reconciler
  import Swarm

  datatype RunnerConfig = RunnerConfig(
    brokers: seq<string>, nodeName: Name, inputTopic: Topic, outputTopics: seq<Topic>, dependsOn: seq<Name>,
    joinStateTopic: Topic, allowedTools: seq<string>, instructions: string, mcpEndpoints: map<string, string>,
    llmBaseURL: string, llmModel: string, llmAPIKey: string)

  /** An unset variable reads as the empty string. */
  function Getenv(env: map<string, string>, key: string): string {
    if key in env then env[key] else ""
  }

  function EndpointsIn(text: string): map<string, string> {
    Decoded(Pieces(text))
  }

  function Loaded(env: map<string, string>): RunnerConfig {
    RunnerConfig(
      Pieces(Getenv(env, "KAFKA_BROKERS")), Getenv(env, "NODE_NAME"), Getenv(env, "INPUT_TOPIC"),
      Pieces(Getenv(env, "OUTPUT_TOPICS")), Pieces(Getenv(env, "DEPENDS_ON")), Getenv(env, "JOIN_STATE_TOPIC"),
      Pieces(Getenv(env, "ALLOWED_TOOLS")), Getenv(env, "INSTRUCTIONS"),
      EndpointsIn(Getenv(env, "MCP_ENDPOINTS")),
      Getenv(env, "LLM_BASE_URL"), Getenv(env, "LLM_MODEL"), Getenv(env, "LLM_API_KEY"))
  }

  method LoadConfig(env: map<string, string>) returns (cfg: RunnerConfig)
    ensures cfg == Loaded(env)
  {
    var endpoints := DecodeMCPEndpoints(Getenv(env, "MCP_ENDPOINTS"));
    var brokers := SplitCSV(Getenv(env, "KAFKA_BROKERS"));
    var outputTopics := SplitCSV(Getenv(env, "OUTPUT_TOPICS"));
    var dependsOn := SplitCSV(Getenv(env, "DEPENDS_ON"));
    var allowedTools := SplitCSV(Getenv(env, "ALLOWED_TOOLS"));
    cfg := RunnerConfig(brokers, Getenv(env, "NODE_NAME"), Getenv(env, "INPUT_TOPIC"), outputTopics, dependsOn,
                        Getenv(env, "JOIN_STATE_TOPIC"), allowedTools, Getenv(env, "INSTRUCTIONS"), endpoints,
                        Getenv(env, "LLM_BASE_URL"), Getenv(env, "LLM_MODEL"), Getenv(env, "LLM_API_KEY"));
  }

  // ---------- What a successful reconcile leaves in the cluster ----------

  lemma {:induction false} EnsuresOf(ops: seq<Op>, t: Topic, compacted: bool)
    requires Op.EnsureTopic(t, !compacted) !in ops
    ensures FirstEnsure(ops, t) ==
            if Op.EnsureTopic(t, compacted) in ops then Some(TopicDetail(3, 1, compacted)) else None
  {
    if ops != [] {
      EnsuresOf(ops[..|ops| - 1], t, compacted);
      assert ops == ops[..|ops| - 1] + [ops[|ops| - 1]];
    }
  }

  ghost predicate OnlyApply(ops: seq<Op>, d: string, desired: Deployment) {
    forall op :: op in ops && op.ApplyDeployment? && op.name == d ==> op.desired == desired
  }

  lemma {:induction false} AppliesOf(ops: seq<Op>, d: string, desired: Deployment)
    requires OnlyApply(ops, d, desired)
    ensures LastApply(ops, d) == FirstApply(ops, d)
    ensures LastApply(ops, d) == if ApplyDeployment(d, desired) in ops then Some(desired) else None
  {
    if ops != [] {
      AppliesOf(ops[..|ops| - 1], d, desired);
      assert ops == ops[..|ops| - 1] + [ops[|ops| - 1]];
    }
  }

  ghost predicate NeedsJoinTopic(node: NodeSpec) {
    node.kind.WorkerNode? && |node.deps| > 1
  }

  lemma NodeIndex(spec: SwarmSpec, node: NodeSpec, i: int)
    requires UniqueNames(spec.nodes) && node in spec.nodes
    ensures 0 <= i < |spec.nodes| && spec.nodes[i].name == node.name ==> spec.nodes[i] == node
  {
    var j :| 0 <= j < |spec.nodes| && spec.nodes[j] == node;
  }

  /** What operations say about this node's topics and deployment; `present` if its own are among them. */
  ghost predicate Mentions(spec: SwarmSpec, node: NodeSpec, ops: seq<Op>, present: bool) {
    && (Op.EnsureTopic(InputTopic(spec.name, node.name), false) in ops <==> present)
    && Op.EnsureTopic(InputTopic(spec.name, node.name), true) !in ops
    && Op.EnsureTopic(JoinStateTopic(spec.name, node.name), false) !in ops
    && (Op.EnsureTopic(JoinStateTopic(spec.name, node.name), true) in ops <==> present && NeedsJoinTopic(node))
    && OnlyApply(ops, DeploymentName(spec.name, node.name), Desired(spec, node))
    && (ApplyDeployment(DeploymentName(spec.name, node.name), Desired(spec, node)) in ops <==>
        present && node.kind.WorkerNode?)
  }

  lemma NodeOpsMembers(spec: SwarmSpec, n: NodeSpec, op: Op)
    ensures op in NodeOps(spec, n) <==>
            || op == Op.EnsureTopic(InputTopic(spec.name, n.name), false)
            || (op == Op.EnsureTopic(JoinStateTopic(spec.name, n.name), true) && NeedsJoinTopic(n))
            || (op == ApplyDeployment(DeploymentName(spec.name, n.name), Desired(spec, n)) && n.kind.WorkerNode?)
  {
  }

  lemma NodeMentions(spec: SwarmSpec, node: NodeSpec, other: NodeSpec)
    requires other.name == node.name ==> other == node
    ensures Mentions(spec, node, NodeOps(spec, other), other == node)
  {
    var ops := NodeOps(spec, other);
    var input, join := InputTopic(spec.name, node.name), JoinStateTopic(spec.name, node.name);
    NamesAreDistinct(spec.name, node.name, other.name);
    NamesAreDistinct(spec.name, other.name, node.name);
    NodeOpsMembers(spec, other, Op.EnsureTopic(input, false));
    NodeOpsMembers(spec, other, Op.EnsureTopic(input, true));
    NodeOpsMembers(spec, other, Op.EnsureTopic(join, false));
    NodeOpsMembers(spec, other, Op.EnsureTopic(join, true));
    NodeOpsMembers(spec, other, ApplyDeployment(DeploymentName(spec.name, node.name), Desired(spec, node)));
    forall op | op in ops && op.ApplyDeployment? && op.name == DeploymentName(spec.name, node.name)
      ensures op.desired == Desired(spec, node)
    {
      NodeOpsMembers(spec, other, op);
    }
  }

  lemma MentionsConcat(spec: SwarmSpec, node: NodeSpec, a: seq<Op>, b: seq<Op>, inA: bool, inB: bool)
    requires Mentions(spec, node, a, inA) && Mentions(spec, node, b, inB)
    ensures Mentions(spec, node, a + b, inA || inB)
  {
  }

  lemma {:induction false} MentionsFlat(spec: SwarmSpec, node: NodeSpec, lists: seq<seq<Op>>, at: int)
    requires forall i :: 0 <= i < |lists| ==> Mentions(spec, node, lists[i], i == at)
    ensures Mentions(spec, node, Flat(lists), 0 <= at < |lists|)
  {
    if lists != [] {
      var init := lists[..|lists| - 1];
      MentionsFlat(spec, node, init, at);
      MentionsConcat(spec, node, Flat(init), lists[|lists| - 1], 0 <= at < |init|, at == |init|);
    }
  }

  lemma SpecMentions(spec: SwarmSpec, node: NodeSpec)
    requires UniqueNames(spec.nodes) && node in spec.nodes
    ensures Mentions(spec, node, Ops(spec), true)
  {
    var at :| 0 <= at < |spec.nodes| && spec.nodes[at] == node;
    forall i | 0 <= i < |spec.nodes| ensures Mentions(spec, node, OpLists(spec)[i], i == at) {
      NodeIndex(spec, node, i);
      NodeMentions(spec, node, spec.nodes[i]);
    }
    MentionsFlat(spec, node, OpLists(spec), at);
  }

  /**
   After a success every node has its input topic, a join-state topic was made exactly for the worker nodes
   with several dependencies, every worker runs exactly its desired template, and a gate has no deployment of
   the controller's making.
   */
  lemma ReconciledCluster(spec: SwarmSpec, c: Cluster, node: NodeSpec)
    requires UniqueNames(spec.nodes) && node in spec.nodes
    ensures var done := RunOps(c, Ops(spec));
            var input, join := InputTopic(spec.name, node.name), JoinStateTopic(spec.name, node.name);
            var d := DeploymentName(spec.name, node.name);
            && input in done.topics && (input !in c.topics ==> done.topics[input] == TopicDetail(3, 1, false))
            && (join in done.topics <==> join in c.topics || NeedsJoinTopic(node))
            && (join in done.topics && join !in c.topics ==> done.topics[join] == TopicDetail(3, 1, true))
            && (node.kind.WorkerNode? ==>
                  && d in done.deployments && done.deployments[d].template == Desired(spec, node).template
                  && done.deployments[d].replicas == Desired(spec, node).replicas)
            && (node.kind.HumanInTheLoop? ==> Lookup(done.deployments, d) == Lookup(c.deployments, d))
  {
    var ops := Ops(spec);
    var input, join := InputTopic(spec.name, node.name), JoinStateTopic(spec.name, node.name);
    var d := DeploymentName(spec.name, node.name);
    SpecMentions(spec, node);
    TopicsAfter(c, ops, input);
    TopicsAfter(c, ops, join);
    DeploymentsAfter(c, ops, d);
    EnsuresOf(ops, input, false);
    EnsuresOf(ops, join, true);
    AppliesOf(ops, d, Desired(spec, node));
  }

  // ---------- What the runner then sees ----------

  /** What a pod started from the template finds in its environment. */
  function RuntimeEnv(t: Template, secrets: string -> string): map<string, string> {
    if t.apiKeySecret.Some? then t.env["LLM_API_KEY" := secrets(t.apiKeySecret.value)] else t.env
  }

  /** An input topic name that survives the list of output topics. */
  predicate SafeTopic(swarm: string, v: Name) {
    ',' !in swarm && ',' !in v && (swarm == "" || !IsSpace(swarm[0]))
  }

  lemma InputTopicIsWellFormed(swarm: string, v: Name)
    ensures WellFormed(InputTopic(swarm, v)) <==> SafeTopic(swarm, v)
  {
    var t := InputTopic(swarm, v);
    assert t[|t| - 1] == 't';
    assert t == swarm + ("-" + (v + "-input"));
    assert swarm == "" ==> t[0] == '-';
    assert swarm != "" ==> t[0] == swarm[0];
  }

  /** Every dependency is a well-formed name, and so is the topic of every node wired below. */
  ghost predicate GoodNames(spec: SwarmSpec, node: NodeSpec) {
    GoodDeps(node) && GoodTopics(spec, node)
  }

  ghost predicate GoodDeps(node: NodeSpec) {
    forall i :: 0 <= i < |node.deps| ==> WellFormed(node.deps[i])
  }

  ghost predicate GoodTopics(spec: SwarmSpec, node: NodeSpec) {
    forall v :: v in Downstream(spec.nodes, node.name) ==> SafeTopic(spec.name, v)
  }

  /** The environment variables that carry the wiring. */
  ghost predicate CarriesWiring(spec: SwarmSpec, node: NodeSpec, env: map<string, string>) {
    && Getenv(env, "NODE_NAME") == node.name && Getenv(env, "INPUT_TOPIC") == InputTopic(spec.name, node.name)
    && Getenv(env, "OUTPUT_TOPICS") == Join(OutputTopics(spec, node)) && Getenv(env, "DEPENDS_ON") == Join(node.deps)
    && Getenv(env, "JOIN_STATE_TOPIC") == JoinTopic(spec, node)
  }

  lemma DesiredEnv(spec: SwarmSpec, node: NodeSpec, secrets: string -> string)
    ensures CarriesWiring(spec, node, RuntimeEnv(Desired(spec, node).template, secrets))
  {
  }

  /** The configuration the swarm model gives the node, and where its topics are. */
  ghost predicate SeesWiring(spec: SwarmSpec, plan: Swarm.Plan, node: NodeSpec, cfg: RunnerConfig) {
    SeesJoin(spec, plan, node, cfg) && SeesOutputs(spec, plan, node, cfg)
  }

  ghost predicate SeesJoin(spec: SwarmSpec, plan: Swarm.Plan, node: NodeSpec, cfg: RunnerConfig) {
    && cfg.nodeName == node.name && cfg.inputTopic == InputTopic(spec.name, node.name)
    && cfg.dependsOn == node.deps == Swarm.Cfg(plan, node.name).deps
    && cfg.joinStateTopic == if |cfg.dependsOn| > 1 then JoinStateTopic(spec.name, node.name) else ""
  }

  ghost predicate SeesOutputs(spec: SwarmSpec, plan: Swarm.Plan, node: NodeSpec, cfg: RunnerConfig) {
    && |cfg.outputTopics| == Swarm.Cfg(plan, node.name).outputs
    && forall k :: 0 <= k < |cfg.outputTopics| ==>
      cfg.outputTopics[k] == InputTopic(spec.name, Swarm.Outs(plan, node.name)[k])
  }

  lemma CarriedJoin(spec: SwarmSpec, plan: Swarm.Plan, node: NodeSpec, env: map<string, string>)
    requires CarriesWiring(spec, node, env) && node.deps == Swarm.Deps(plan, node.name)
    ensures SeesJoin(spec, plan, node, Loaded(env)) <==> GoodDeps(node)
  {
    ListRoundTrip(node.deps);
    LoadedPieces(env);
    LoadedNames(env);
  }

  lemma LoadedNames(env: map<string, string>)
    ensures Loaded(env).nodeName == Getenv(env, "NODE_NAME") && Loaded(env).inputTopic == Getenv(env, "INPUT_TOPIC")
    ensures Loaded(env).joinStateTopic == Getenv(env, "JOIN_STATE_TOPIC")
  {
  }

  lemma CarriedOutputs(spec: SwarmSpec, plan: Swarm.Plan, node: NodeSpec, env: map<string, string>)
    requires CarriesWiring(spec, node, env) && plan.nodes == spec.nodes
    ensures SeesOutputs(spec, plan, node, Loaded(env)) <==> GoodTopics(spec, node)
  {
    OutputsSurvive(spec, node);
    LoadedPieces(env);
    AreOutputTopics(spec, plan, node, Loaded(env));
  }

  lemma LoadedPieces(env: map<string, string>)
    ensures Loaded(env).outputTopics == Pieces(Getenv(env, "OUTPUT_TOPICS"))
    ensures Loaded(env).dependsOn == Pieces(Getenv(env, "DEPENDS_ON"))
  {
  }

  lemma AreOutputTopics(spec: SwarmSpec, plan: Swarm.Plan, node: NodeSpec, cfg: RunnerConfig)
    requires plan.nodes == spec.nodes
    ensures SeesOutputs(spec, plan, node, cfg) <==> cfg.outputTopics == OutputTopics(spec, node)
  {
    if SeesOutputs(spec, plan, node, cfg) {
      assert forall k :: 0 <= k < |cfg.outputTopics| ==> cfg.outputTopics[k] == OutputTopics(spec, node)[k];
    }
  }

  lemma OutputsSurvive(spec: SwarmSpec, node: NodeSpec)
    ensures Pieces(Join(OutputTopics(spec, node))) == OutputTopics(spec, node) <==> GoodTopics(spec, node)
  {
    var outputs, down := OutputTopics(spec, node), Downstream(spec.nodes, node.name);
    ListRoundTrip(outputs);
    forall k | 0 <= k < |outputs| ensures WellFormed(outputs[k]) <==> SafeTopic(spec.name, down[k]) {
      InputTopicIsWellFormed(spec.name, down[k]);
    }
    if forall k :: 0 <= k < |outputs| ==> WellFormed(outputs[k]) {
      forall v | v in down ensures SafeTopic(spec.name, v) {
        var k :| 0 <= k < |down| && down[k] == v;
        assert WellFormed(outputs[k]);
      }
    }
  }

  lemma DeclaredDeps(spec: SwarmSpec, plan: Swarm.Plan, node: NodeSpec)
    requires UniqueNames(spec.nodes) && node in spec.nodes && plan.nodes == spec.nodes
    ensures Swarm.Deps(plan, node.name) == node.deps
  {
    var i :| 0 <= i < |spec.nodes| && spec.nodes[i] == node;
    assert Names(spec.nodes)[i] == node.name;
    var found := Swarm.Find(spec.nodes, node.name);
    var j :| 0 <= j < |spec.nodes| && spec.nodes[j] == found;
    NodeIndex(spec, node, j);
  }

  /** The configuration of a worker's process, deployed by a successful reconcile of cluster c. */
  ghost function WorkerConfig(spec: SwarmSpec, c: Cluster, node: NodeSpec, secrets: string -> string): RunnerConfig
    requires UniqueNames(spec.nodes) && node in spec.nodes && node.kind.WorkerNode?
  {
    ReconciledCluster(spec, c, node);
    Loaded(RuntimeEnv(RunOps(c, Ops(spec)).deployments[DeploymentName(spec.name, node.name)].template, secrets))
  }

  lemma WorkerEnv(spec: SwarmSpec, c: Cluster, node: NodeSpec, secrets: string -> string)
    returns (env: map<string, string>)
    requires UniqueNames(spec.nodes) && node in spec.nodes && node.kind.WorkerNode?
    ensures CarriesWiring(spec, node, env) && WorkerConfig(spec, c, node, secrets) == Loaded(env)
  {
    ReconciledCluster(spec, c, node);
    env := RuntimeEnv(Desired(spec, node).template, secrets);
    DesiredEnv(spec, node, secrets);
  }

  lemma EnvShowsWiring(spec: SwarmSpec, plan: Swarm.Plan, node: NodeSpec, env: map<string, string>)
    requires CarriesWiring(spec, node, env) && node.deps == Swarm.Deps(plan, node.name) && plan.nodes == spec.nodes
    ensures SeesWiring(spec, plan, node, Loaded(env)) <==> GoodNames(spec, node)
  {
    CarriedJoin(spec, plan, node, env);
    CarriedOutputs(spec, plan, node, env);
  }

  /**
   Whatever the cluster was before, the configuration a worker's process parses is the one the swarm model gives
   the node (the same dependencies, one output topic per dependent in the same order, a join-state topic exactly
   when it joins) if and only if its dependencies and its dependents' topics are well-formed names.
   */
  lemma RunnerSeesWiring(spec: SwarmSpec, plan: Swarm.Plan, c: Cluster, node: NodeSpec, secrets: string -> string)
    requires UniqueNames(spec.nodes) && node in spec.nodes && node.kind.WorkerNode? && plan.nodes == spec.nodes
    ensures SeesWiring(spec, plan, node, WorkerConfig(spec, c, node, secrets)) <==> GoodNames(spec, node)
  {
    var env := WorkerEnv(spec, c, node, secrets);
    DeclaredDeps(spec, plan, node);
    EnvShowsWiring(spec, plan, node, env);
  }

  /**
   For any dependencies at all: the worker joins exactly when the controller gave it a join-state topic, if and
   only if a single entry has at most one part that is not blank and several have at least two between them.
   */
  lemma JoinTopicAgreement(spec: SwarmSpec, c: Cluster, node: NodeSpec, secrets: string -> string)
    requires UniqueNames(spec.nodes) && node in spec.nodes && node.kind.WorkerNode?
    ensures var cfg := WorkerConfig(spec, c, node, secrets);
            (cfg.joinStateTopic != "" <==> |cfg.dependsOn| > 1) <==>
            && (|node.deps| == 1 ==> CountNonBlank(Split(node.deps[0])) <= 1)
            && (|node.deps| > 1 ==> TotalParts(node.deps) >= 2)
  {
    var env := WorkerEnv(spec, c, node, secrets);
    FanInAgreement(node.deps);
    var topic := JoinStateTopic(spec.name, node.name);
    assert topic[|topic| - 1] == 'e';
  }

  // ---------- Everything else in a worker's deployment ----------

  /** What the cluster runs for a worker, apart from the environment. */
  lemma DeployedWorker(spec: SwarmSpec, c: Cluster, node: NodeSpec)
    requires UniqueNames(spec.nodes) && node in spec.nodes && node.kind.WorkerNode?
    ensures DeploymentName(spec.name, node.name) in RunOps(c, Ops(spec)).deployments
    ensures var d := RunOps(c, Ops(spec)).deployments[DeploymentName(spec.name, node.name)];
            && d.replicas == (if node.replicas == 0 then 1 else node.replicas)
            && d.template.image == node.image
            && d.template.labels == Labels("agentswarm", node.name, spec.name)
            && d.template.apiKeySecret == node.apiKeySecret
            && d.identity == if DeploymentName(spec.name, node.name) in c.deployments
                             then c.deployments[DeploymentName(spec.name, node.name)].identity
                             else Labels("agentswarm", node.name, spec.name)
  {
    var ops, name := Ops(spec), DeploymentName(spec.name, node.name);
    ReconciledCluster(spec, c, node);
    SpecMentions(spec, node);
    DeploymentsAfter(c, ops, name);
    AppliesOf(ops, name, Desired(spec, node));
  }

  /** The environment variables that do not carry the wiring. */
  ghost predicate CarriesRest(spec: SwarmSpec, node: NodeSpec, env: map<string, string>) {
    && Getenv(env, "KAFKA_BROKERS") == Join(spec.brokers) && Getenv(env, "ALLOWED_TOOLS") == Join(node.tools)
    && Getenv(env, "MCP_ENDPOINTS") == Join(Pairs(node.mcp))
    && Getenv(env, "INSTRUCTIONS") == node.instructions
    && Getenv(env, "LLM_BASE_URL") == node.llmBaseURL && Getenv(env, "LLM_MODEL") == node.llmModel
  }

  lemma DesiredRest(spec: SwarmSpec, node: NodeSpec, secrets: string -> string)
    ensures CarriesRest(spec, node, RuntimeEnv(Desired(spec, node).template, secrets))
  {
  }

  lemma DesiredKey(spec: SwarmSpec, node: NodeSpec, secrets: string -> string)
    ensures Getenv(RuntimeEnv(Desired(spec, node).template, secrets), "LLM_API_KEY") ==
            if node.apiKeySecret.Some? then secrets(node.apiKeySecret.value) else ""
  {
  }

  lemma WorkerRest(spec: SwarmSpec, c: Cluster, node: NodeSpec, secrets: string -> string)
    returns (env: map<string, string>)
    requires UniqueNames(spec.nodes) && node in spec.nodes && node.kind.WorkerNode?
    ensures CarriesRest(spec, node, env) && WorkerConfig(spec, c, node, secrets) == Loaded(env)
    ensures Getenv(env, "LLM_API_KEY") == if node.apiKeySecret.Some? then secrets(node.apiKeySecret.value) else ""
  {
    ReconciledCluster(spec, c, node);
    env := RuntimeEnv(Desired(spec, node).template, secrets);
    DesiredRest(spec, node, secrets);
    DesiredKey(spec, node, secrets);
  }

  /**
   From the spec to the process, for everything but the wiring: brokers and tools arrive exactly when their entries
   are well-formed, instructions, model, URL and API key always do.
   */
  lemma RunnerSeesSettings(spec: SwarmSpec, c: Cluster, node: NodeSpec, secrets: string -> string)
    requires UniqueNames(spec.nodes) && node in spec.nodes && node.kind.WorkerNode?
    ensures var cfg := WorkerConfig(spec, c, node, secrets);
            && (cfg.brokers == spec.brokers <==> forall i :: 0 <= i < |spec.brokers| ==> WellFormed(spec.brokers[i]))
            && (cfg.allowedTools == node.tools <==> forall i :: 0 <= i < |node.tools| ==> WellFormed(node.tools[i]))
            && cfg.instructions == node.instructions && cfg.llmBaseURL == node.llmBaseURL
            && cfg.llmModel == node.llmModel
            && cfg.llmAPIKey == if node.apiKeySecret.Some? then secrets(node.apiKeySecret.value) else ""
  {
    var env := WorkerRest(spec, c, node, secrets);
    LoadedSettings(env);
    LoadedTexts(env);
    ListRoundTrip(spec.brokers);
    ListRoundTrip(node.tools);
  }

  lemma LoadedSettings(env: map<string, string>)
    ensures Loaded(env).brokers == Pieces(Getenv(env, "KAFKA_BROKERS"))
    ensures Loaded(env).allowedTools == Pieces(Getenv(env, "ALLOWED_TOOLS"))
  {
  }

  lemma LoadedEndpoints(env: map<string, string>)
    ensures Loaded(env).mcpEndpoints == EndpointsIn(Getenv(env, "MCP_ENDPOINTS"))
  {
  }

  lemma LoadedTexts(env: map<string, string>)
    ensures Loaded(env).instructions == Getenv(env, "INSTRUCTIONS")
    ensures Loaded(env).llmBaseURL == Getenv(env, "LLM_BASE_URL") && Loaded(env).llmModel == Getenv(env, "LLM_MODEL")
    ensures Loaded(env).llmAPIKey == Getenv(env, "LLM_API_KEY")
  {
  }

  lemma WorkerEndpoints(spec: SwarmSpec, c: Cluster, node: NodeSpec, secrets: string -> string)
    requires UniqueNames(spec.nodes) && node in spec.nodes && node.kind.WorkerNode?
    ensures WorkerConfig(spec, c, node, secrets).mcpEndpoints ==
            Decoded(Pieces(Join(Pairs(node.mcp))))
  {
    var env := WorkerRest(spec, c, node, secrets);
    LoadedEndpoints(env);
  }

  /** The last URL declared for a name wins, and no other name occurs. */
  ghost predicate LastUrls(got: map<string, string>, mcp: seq<Endpoint>) {
    forall name ::
      && (forall i :: LastNamed(mcp, i, name) ==> name in got && got[name] == mcp[i].url)
      && (name in got ==> exists k :: 0 <= k < |mcp| && mcp[k].name == name)
  }

  /** Well-formed endpoints arrive as the map in which the last URL declared for a name wins. */
  lemma RunnerSeesEndpoints(spec: SwarmSpec, c: Cluster, node: NodeSpec, secrets: string -> string)
    returns (got: map<string, string>)
    requires UniqueNames(spec.nodes) && node in spec.nodes && node.kind.WorkerNode?
    requires forall k :: 0 <= k < |node.mcp| ==> WellFormedEndpoint(node.mcp[k])
    ensures got == WorkerConfig(spec, c, node, secrets).mcpEndpoints && LastUrls(got, node.mcp)
  {
    got := EndpointsDecode(node.mcp);
    WorkerEndpoints(spec, c, node, secrets);
  }

  lemma EndpointsDecode(mcp: seq<Endpoint>) returns (got: map<string, string>)
    requires forall k :: 0 <= k < |mcp| ==> WellFormedEndpoint(mcp[k])
    ensures got == Decoded(Pieces(Join(Pairs(mcp))))
    ensures LastUrls(got, mcp)
  {
    got := Decoded(Pieces(Join(Pairs(mcp))));
    forall name
      ensures forall i :: LastNamed(mcp, i, name) ==> name in got && got[name] == mcp[i].url
      ensures name in got ==> exists k :: 0 <= k < |mcp| && mcp[k].name == name
    {
      EndpointRoundTrip(mcp, name, 0);
      forall i | LastNamed(mcp, i, name) ensures name in got && got[name] == mcp[i].url {
        EndpointRoundTrip(mcp, name, i);
      }
    }
  }

  // ---------- The order of a partial run ----------

  /** Every deployment of this name comes after both of its topics were seen to. */
  ghost predicate TopicsFirst(spec: SwarmSpec, node: NodeSpec, ops: seq<Op>) {
    forall i :: 0 <= i < |ops| && ops[i].ApplyDeployment? && ops[i].name == DeploymentName(spec.name, node.name) ==>
      && Op.EnsureTopic(InputTopic(spec.name, node.name), false) in ops[..i]
      && (|node.deps| > 1 ==> Op.EnsureTopic(JoinStateTopic(spec.name, node.name), true) in ops[..i])
  }

  lemma OwnTopicsFirst(spec: SwarmSpec, node: NodeSpec, other: NodeSpec)
    requires other.name == node.name ==> other == node
    ensures TopicsFirst(spec, node, NodeOps(spec, other))
  {
    var ops := NodeOps(spec, other);
    NamesAreDistinct(spec.name, node.name, other.name);
    if other == node && node.kind.WorkerNode? {
      var last := |ops| - 1;
      assert ops[last].ApplyDeployment? && forall i :: 0 <= i < last ==> !ops[i].ApplyDeployment?;
      assert ops[..last][0] == Op.EnsureTopic(InputTopic(spec.name, node.name), false);
      assert |node.deps| > 1 ==> ops[..last][1] == Op.EnsureTopic(JoinStateTopic(spec.name, node.name), true);
    }
  }

  lemma TopicsFirstConcat(spec: SwarmSpec, node: NodeSpec, a: seq<Op>, b: seq<Op>)
    requires TopicsFirst(spec, node, a) && TopicsFirst(spec, node, b)
    ensures TopicsFirst(spec, node, a + b)
  {
    forall i |
      0 <= i < |a + b| && (a + b)[i].ApplyDeployment? && (a + b)[i].name == DeploymentName(spec.name, node.name)
      ensures Op.EnsureTopic(InputTopic(spec.name, node.name), false) in (a + b)[..i]
      ensures |node.deps| > 1 ==> Op.EnsureTopic(JoinStateTopic(spec.name, node.name), true) in (a + b)[..i]
    {
      if i < |a| {
        assert (a + b)[..i] == a[..i];
      } else {
        assert (a + b)[..i] == a + b[..i - |a|];
      }
    }
  }

  lemma {:induction false} FlatTopicsFirst(spec: SwarmSpec, node: NodeSpec, lists: seq<seq<Op>>)
    requires forall i :: 0 <= i < |lists| ==> TopicsFirst(spec, node, lists[i])
    ensures TopicsFirst(spec, node, Flat(lists))
  {
    if lists != [] {
      FlatTopicsFirst(spec, node, lists[..|lists| - 1]);
      TopicsFirstConcat(spec, node, Flat(lists[..|lists| - 1]), lists[|lists| - 1]);
    }
  }

  lemma SpecTopicsFirst(spec: SwarmSpec, node: NodeSpec)
    requires UniqueNames(spec.nodes) && node in spec.nodes
    ensures TopicsFirst(spec, node, Ops(spec))
  {
    forall i | 0 <= i < |spec.nodes| ensures TopicsFirst(spec, node, OpLists(spec)[i]) {
      NodeIndex(spec, node, i);
      OwnTopicsFirst(spec, node, spec.nodes[i]);
    }
    FlatTopicsFirst(spec, node, OpLists(spec));
  }

  lemma {:induction false} ChangedMeansApplied(c: Cluster, ops: seq<Op>, d: string) returns (i: nat)
    requires Lookup(RunOps(c, ops).deployments, d) != Lookup(c.deployments, d)
    ensures i < |ops| && ops[i].ApplyDeployment? && ops[i].name == d
  {
    var init, last := ops[..|ops| - 1], ops[|ops| - 1];
    if last.ApplyDeployment? && last.name == d {
      i := |ops| - 1;
    } else {
      i := ChangedMeansApplied(c, init, d);
    }
  }

  lemma {:induction false} EnsuredMeansThere(c: Cluster, ops: seq<Op>, t: Topic, compacted: bool)
    requires Op.EnsureTopic(t, compacted) in ops
    ensures t in RunOps(c, ops).topics
  {
    if ops[|ops| - 1] != Op.EnsureTopic(t, compacted) {
      assert ops == ops[..|ops| - 1] + [ops[|ops| - 1]];
      EnsuredMeansThere(c, ops[..|ops| - 1], t, compacted);
    }
  }

  /** However far a run got, a worker it deployed or changed finds its input topic and the join-state topic it needs. */
  lemma TopicsBeforeDeployment(spec: SwarmSpec, c: Cluster, now: Cluster, node: NodeSpec)
    requires UniqueNames(spec.nodes) && node in spec.nodes && PartWay(c, Ops(spec), now)
    requires var d := DeploymentName(spec.name, node.name); Lookup(now.deployments, d) != Lookup(c.deployments, d)
    ensures InputTopic(spec.name, node.name) in now.topics
    ensures |node.deps| > 1 ==> JoinStateTopic(spec.name, node.name) in now.topics
  {
    var k :| 0 <= k <= |Ops(spec)| && now == RunOps(c, Ops(spec)[..k]);
    var done := Ops(spec)[..k];
    var i := ChangedMeansApplied(c, done, DeploymentName(spec.name, node.name));
    SpecTopicsFirst(spec, node);
    assert Ops(spec)[i] == done[i];
    assert forall op :: op in Ops(spec)[..i] ==> op in done;
    EnsuredMeansThere(c, done, InputTopic(spec.name, node.name), false);
    if |node.deps| > 1 {
      EnsuredMeansThere(c, done, JoinStateTopic(spec.name, node.name), true);
    }
  }
}
