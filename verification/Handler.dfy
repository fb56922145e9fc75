/** The runner process itself: the message loop, the join, publishing and recovery, refining the step relation. */
module Handler {
  import opened Types
  import opened Changelog
  import opened Merge
  import Agent
  import opened Runner
  import opened RunnerProofs

  /** What the process leaves behind when it calls a log.Fatalf. */
  datatype Status = Alive | Fatal

  /** The topics this node writes: its changelog and its output topics. */
  class Broker {
    var changelog: seq<Record>
    var outputs: seq<seq<Msg>>
    /** Every record handed to the changelog's producer, whether it landed or not. */
    ghost var tried: seq<Record>

    constructor (topics: nat)
      ensures changelog == [] && outputs == seq(topics, _ => []) && tried == []
    {
      changelog, tried := [], [];
      outputs := seq(topics, _ => []);
    }

    /** A send that fails may or may not have landed. */
    method SendRecord(r: Record) returns (ok: bool)
      modifies this`changelog, this`tried
      ensures ok ==> changelog == old(changelog) + [r]
      ensures changelog == old(changelog) || changelog == old(changelog) + [r]
      ensures tried == old(tried) + [r]
    {
      tried := tried + [r];
      var landed: bool := *;
      ok := *;
      if landed || ok {
        changelog := changelog + [r];
      }
    }

    method SendOutput(k: nat, m: Msg) returns (ok: bool)
      requires k < |outputs|
      modifies this`outputs
      ensures ok ==> outputs == old(outputs)[k := old(outputs)[k] + [m]]
      ensures outputs == old(outputs) || outputs == old(outputs)[k := old(outputs)[k] + [m]]
    {
      var landed: bool := *;
      ok := *;
      if landed || ok {
        outputs := outputs[k := outputs[k] + [m]];
      }
    }
  }

  // ---------- Runs between two states ----------

  ghost predicate Trace(cfg: Config, s: Node, steps: seq<Step>, t: Node)
    decreases |steps|
  {
    if steps == [] then s == t
    else Enabled(cfg, s, steps[0]) && Trace(cfg, Apply(cfg, s, steps[0]), steps[1..], t)
  }

  ghost predicate Reaches(cfg: Config, s: Node, t: Node) {
    exists steps :: Trace(cfg, s, steps, t)
  }

  lemma {:induction false} TraceConcat(cfg: Config, s: Node, xs: seq<Step>, t: Node, ys: seq<Step>, u: Node)
    requires Trace(cfg, s, xs, t) && Trace(cfg, t, ys, u)
    ensures Trace(cfg, s, xs + ys, u)
    decreases |xs|
  {
    if xs == [] {
      assert xs + ys == ys;
    } else {
      TraceConcat(cfg, Apply(cfg, s, xs[0]), xs[1..], t, ys, u);
      assert (xs + ys)[0] == xs[0] && (xs + ys)[1..] == xs[1..] + ys;
    }
  }

  lemma ReachesSelf(cfg: Config, s: Node)
    ensures Reaches(cfg, s, s)
  {
    assert Trace(cfg, s, [], s);
  }

  lemma ReachesStep(cfg: Config, s: Node, t: Node, step: Step)
    requires Reaches(cfg, s, t) && Enabled(cfg, t, step)
    ensures Reaches(cfg, s, Apply(cfg, t, step))
  {
    var xs :| Trace(cfg, s, xs, t);
    var u := Apply(cfg, t, step);
    assert Trace(cfg, t, [step], u) by {
      assert [step][1..] == [];
      assert Trace(cfg, u, [], u);
    }
    TraceConcat(cfg, s, xs, t, [step], u);
  }

  lemma ReachesVia(cfg: Config, s: Node, t: Node, u: Node)
    requires Reaches(cfg, s, t) && Reaches(cfg, t, u)
    ensures Reaches(cfg, s, u)
  {
    var xs :| Trace(cfg, s, xs, t);
    var ys :| Trace(cfg, t, ys, u);
    TraceConcat(cfg, s, xs, t, ys, u);
  }

  lemma {:induction false} TraceKeeps(cfg: Config, s: Node, steps: seq<Step>, t: Node)
    requires Runner.Inv(cfg, s) && Trace(cfg, s, steps, t)
    ensures Runner.Inv(cfg, t)
    decreases |steps|
  {
    if steps != [] {
      StepKeeps(cfg, s, steps[0]);
      TraceKeeps(cfg, Apply(cfg, s, steps[0]), steps[1..], t);
    }
  }

  /** Whatever the code below reaches is within the protocol's invariant. */
  lemma ReachesKeeps(cfg: Config, s: Node, t: Node)
    requires Runner.Inv(cfg, s) && Reaches(cfg, s, t)
    ensures Runner.Inv(cfg, t)
  {
    var steps :| Trace(cfg, s, steps, t);
    TraceKeeps(cfg, s, steps, t);
  }

  /** In between no input offset was committed and no attempt was begun or published. */
  ghost predicate SameCommits(before: Node, after: Node) {
    && after.attempts == before.attempts && |after.lanes| == |before.lanes|
    && forall q :: 0 <= q < |before.lanes| ==>
         after.lanes[q].committed == before.lanes[q].committed && after.lanes[q].log == before.lanes[q].log
  }

  lemma JoinCommitsNothing(s: Node, p: nat)
    requires CanTake(s, p)
    ensures SameCommits(s, DoJoin(s, p)) && SameCommits(s, DoCrash(s)) && SameCommits(s, DoCrash(DoJoin(s, p)))
  {
  }

  /** The message's data is now its source's part of the join, and nothing else about the joins has changed. */
  ghost predicate Contributes(before: Joins, after: Joins, env: Msg) {
    && env.cid in after && env.source in after[env.cid] && after[env.cid][env.source] == env.data
    && (forall s :: s != env.source ==>
          Lookup(after[env.cid], s) == if env.cid in before then Lookup(before[env.cid], s) else None)
    && forall c :: c != env.cid ==> Lookup(after, c) == Lookup(before, c)
  }

  /** Every attempt from the n-th on carries what the agent answered to its input. */
  ghost predicate AllAnswered(brain: Agent.Brain, attempts: seq<Attempt>, n: nat) {
    forall a :: n <= a < |attempts| ==> Says(brain, attempts[a].input, attempts[a].out)
  }

  ghost predicate Says(brain: Agent.Brain, input: Data, out: Data) {
    exists k: nat :: Agent.Outcome(brain, k, input, out)
  }

  /** Attempts differ at most in how far they were published. */
  ghost predicate SameButLanded(before: seq<Attempt>, after: seq<Attempt>) {
    |after| == |before| && forall a :: 0 <= a < |after| ==> after[a] == before[a].(landed := after[a].landed)
  }

  lemma NewestAnswered(brain: Agent.Brain, before: seq<Attempt>, t: Attempt, after: seq<Attempt>)
    requires |after| == |before| + 1 && Says(brain, t.input, t.out)
    requires after == (before + [t])[|before| := t.(landed := after[|before|].landed)]
    ensures before <= after && AllAnswered(brain, after, |before|)
  {
  }

  lemma AnsweredThen(brain: Agent.Brain, mid: seq<Attempt>, after: seq<Attempt>, n: nat)
    requires n <= |mid| <= |after| && AllAnswered(brain, mid, n) && AllAnswered(brain, after, |mid|)
    requires SameButLanded(mid, after[..|mid|])
    ensures AllAnswered(brain, after, n)
  {
    forall a | n <= a < |after| ensures Says(brain, after[a].input, after[a].out) {
      if a < |mid| {
        assert after[..|mid|][a] == after[a];
      }
    }
  }

  // ---------- Recovery ----------

  /** The attempt completed this very join. */
  ghost predicate RecoveredBy(cfg: Config, t: Attempt, c: Cid, received: Received) {
    t.cid == c && t.received == received && IsMerge(received, t.input) && t.input.Keys <= t.out.Keys && Complete(cfg, t)
  }

  /** A hydrated join that is full and has been looked at. */
  ghost predicate IsDue(cfg: Config, kept: Joins, rest: set<Cid>, c: Cid) {
    c in kept && c !in rest && |kept[c]| >= |cfg.deps|
  }

  ghost predicate OnlyDue(cfg: Config, kept: Joins, rest: set<Cid>, made: seq<Attempt>) {
    forall i :: 0 <= i < |made| ==>
      IsDue(cfg, kept, rest, made[i].cid) && RecoveredBy(cfg, made[i], made[i].cid, kept[made[i].cid])
  }

  ghost predicate NoneTwice(made: seq<Attempt>) {
    forall i, j :: 0 <= i < j < |made| ==> made[i].cid != made[j].cid
  }

  /** The full joins looked at so far, and no others, were completed, by one attempt each. */
  ghost predicate Caught(cfg: Config, kept: Joins, rest: set<Cid>, made: seq<Attempt>) {
    && OnlyDue(cfg, kept, rest, made) && NoneTwice(made)
    && forall c :: IsDue(cfg, kept, rest, c) ==> Attempted(made, c)
  }

  lemma CaughtSkip(cfg: Config, kept: Joins, rest: set<Cid>, made: seq<Attempt>, c: Cid)
    requires Caught(cfg, kept, rest, made) && c in rest && c in kept && |kept[c]| < |cfg.deps|
    ensures Caught(cfg, kept, rest - {c}, made)
  {
    assert forall d :: IsDue(cfg, kept, rest - {c}, d) <==> IsDue(cfg, kept, rest, d);
  }

  lemma CaughtOne(cfg: Config, kept: Joins, rest: set<Cid>, made: seq<Attempt>, c: Cid, t: Attempt)
    requires Caught(cfg, kept, rest, made) && c in rest && c in kept && |kept[c]| >= |cfg.deps|
    requires RecoveredBy(cfg, t, c, kept[c])
    ensures Caught(cfg, kept, rest - {c}, made + [t])
  {
    var all := made + [t];
    assert forall d :: IsDue(cfg, kept, rest - {c}, d) <==> IsDue(cfg, kept, rest, d) || d == c;
    forall d | IsDue(cfg, kept, rest - {c}, d) ensures Attempted(all, d) {
      if d == c {
        assert all[|made|].cid == c;
      } else {
        var i :| 0 <= i < |made| && made[i].cid == d;
        assert all[i].cid == d;
      }
    }
    assert NoneTwice(all) by {
      assert forall i :: 0 <= i < |made| ==> IsDue(cfg, kept, rest, made[i].cid);
    }
  }

  ghost function Results(nodeName: Name, attempts: seq<Attempt>): seq<Msg> {
    seq(|attempts|, i requires 0 <= i < |attempts| => Msg(attempts[i].cid, nodeName, attempts[i].out))
  }

  /** Every output topic got the result of each new attempt, once and in order. */
  ghost predicate AllSent(nodeName: Name, made: seq<Attempt>, before: seq<seq<Msg>>, after: seq<seq<Msg>>) {
    |after| == |before| && forall k :: 0 <= k < |before| ==> after[k] == before[k] + Results(nodeName, made)
  }

  /** A full join was completed by one new attempt, sent to every topic; any other was left alone. */
  ghost predicate OneCaught(cfg: Config, nodeName: Name, c: Cid, received: Received, before: seq<Attempt>,
                            after: seq<Attempt>, sent: seq<seq<Msg>>, outputs: seq<seq<Msg>>)
  {
    if |received| >= |cfg.deps| then
      && |after| == |before| + 1 && before <= after && RecoveredBy(cfg, after[|before|], c, received)
      && AllSent(nodeName, [after[|before|]], sent, outputs)
    else after == before && outputs == sent
  }

  lemma CaughtByCompletion(cfg: Config, nodeName: Name, c: Cid, received: Received, input: Data, before: seq<Attempt>,
                           after: seq<Attempt>, sent: seq<seq<Msg>>, outputs: seq<seq<Msg>>)
    requires |received| >= |cfg.deps| && IsMerge(received, input) && |after| == |before| + 1 && before <= after
    requires var t := after[|before|];
             && t.cid == c && t.received == received && t.input == input && input.Keys <= t.out.Keys && Complete(cfg, t)
             && |outputs| == |sent|
             && forall k :: 0 <= k < |sent| ==> outputs[k] == sent[k] + [Msg(c, nodeName, t.out)]
    ensures OneCaught(cfg, nodeName, c, received, before, after, sent, outputs)
  {
    assert Results(nodeName, [after[|before|]]) == [Msg(c, nodeName, after[|before|].out)];
  }

  ghost predicate AllCaught(cfg: Config, nodeName: Name, kept: Joins, rest: set<Cid>, before: seq<Attempt>,
                            after: seq<Attempt>, sent: seq<seq<Msg>>, outputs: seq<seq<Msg>>)
  {
    && before <= after && Caught(cfg, kept, rest, after[|before|..])
    && AllSent(nodeName, after[|before|..], sent, outputs)
  }

  lemma NothingCaughtYet(cfg: Config, nodeName: Name, kept: Joins, attempts: seq<Attempt>, sent: seq<seq<Msg>>)
    ensures AllCaught(cfg, nodeName, kept, kept.Keys, attempts, attempts, sent, sent)
  {
    assert forall c :: !IsDue(cfg, kept, kept.Keys, c);
    assert attempts[|attempts|..] == [];
  }

  lemma AllSentThen(nodeName: Name, made: seq<Attempt>, t: Attempt, sent: seq<seq<Msg>>, mid: seq<seq<Msg>>,
                    outputs: seq<seq<Msg>>)
    requires AllSent(nodeName, made, sent, mid) && AllSent(nodeName, [t], mid, outputs)
    ensures AllSent(nodeName, made + [t], sent, outputs)
  {
    assert Results(nodeName, made + [t]) == Results(nodeName, made) + Results(nodeName, [t]);
  }

  lemma RecoveryStep(cfg: Config, nodeName: Name, kept: Joins, rest: set<Cid>, c: Cid, start: seq<Attempt>,
                     mid: seq<Attempt>, after: seq<Attempt>, sent: seq<seq<Msg>>, midSent: seq<seq<Msg>>,
                     outputs: seq<seq<Msg>>)
    requires c in kept && c in rest && AllCaught(cfg, nodeName, kept, rest, start, mid, sent, midSent)
    requires OneCaught(cfg, nodeName, c, kept[c], mid, after, midSent, outputs)
    ensures AllCaught(cfg, nodeName, kept, rest - {c}, start, after, sent, outputs)
  {
    var made := mid[|start|..];
    if |kept[c]| >= |cfg.deps| {
      var t := after[|mid|];
      assert after == mid + [t];
      assert after[|start|..] == made + [t];
      CaughtOne(cfg, kept, rest, made, c, t);
      AllSentThen(nodeName, made, t, sent, midSent, outputs);
    } else {
      CaughtSkip(cfg, kept, rest, made, c);
    }
  }

  // ---------- One message ----------

  /** What a turn of the loop changes: the joins in memory, the attempts begun, and the output topics. */
  datatype View = View(joins: Joins, attempts: seq<Attempt>, outputs: seq<seq<Msg>>)

  /** The message completes its join, or needs none. */
  ghost predicate Completes(cfg: Config, joins: Joins, env: Msg) {
    cfg.FanIn() ==> |Contributed(joins, env)| >= |cfg.deps|
  }

  /** One attempt more, and its result once more in every output topic. */
  ghost predicate OneMore(cfg: Config, nodeName: Name, c: Cid, input: Data, before: View, after: View) {
    && |after.attempts| == |before.attempts| + 1 && before.attempts <= after.attempts
    && |after.outputs| == |before.outputs|
    && var t := after.attempts[|before.attempts|];
       && t.cid == c && t.input == input && input.Keys <= t.out.Keys && Complete(cfg, t)
       && forall k :: 0 <= k < |before.outputs| ==> after.outputs[k] == before.outputs[k] + [Msg(c, nodeName, t.out)]
  }

  /** A message that completes its join puts one result in every output topic and leaves no join behind. */
  ghost predicate Handled(cfg: Config, nodeName: Name, env: Msg, before: View, after: View) {
    if Completes(cfg, before.joins, env) then
      exists input :: HandledWith(cfg, nodeName, env, input, before, after)
    else
      after == before.(joins := before.joins[env.cid := Contributed(before.joins, env)])
  }

  ghost predicate HandledWith(cfg: Config, nodeName: Name, env: Msg, input: Data, before: View, after: View) {
    && OneMore(cfg, nodeName, env.cid, input, before, after)
    && (if cfg.FanIn() then IsMerge(Contributed(before.joins, env), input) else input == env.data)
    && after.joins == if cfg.FanIn() then before.joins - {env.cid} else before.joins
  }

  /** Every message in turn, and nothing else in between. */
  ghost predicate HandledAll(cfg: Config, nodeName: Name, messages: seq<Msg>, before: View, after: View) {
    if messages == [] then after == before
    else
      var n := |messages| - 1;
      exists mid ::
        HandledAll(cfg, nodeName, messages[..n], before, mid) && Handled(cfg, nodeName, messages[n], mid, after)
  }

  lemma HandledNext(cfg: Config, nodeName: Name, messages: seq<Msg>, i: nat, before: View, mid: View, after: View)
    requires i < |messages| && HandledAll(cfg, nodeName, messages[..i], before, mid)
    requires Handled(cfg, nodeName, messages[i], mid, after)
    ensures HandledAll(cfg, nodeName, messages[..i + 1], before, after)
  {
    assert messages[..i + 1][..i] == messages[..i];
  }

  lemma JoinedThenCompleted(cfg: Config, nodeName: Name, env: Msg, input: Data, before: View, mid: View, after: View)
    requires Completes(cfg, before.joins, env) && mid.attempts == before.attempts && mid.outputs == before.outputs
    requires mid.joins == if cfg.FanIn() then before.joins[env.cid := Contributed(before.joins, env)] else before.joins
    requires if cfg.FanIn() then IsMerge(Contributed(before.joins, env), input) else input == env.data
    requires OneMore(cfg, nodeName, env.cid, input, mid, after)
    requires after.joins == if cfg.FanIn() then mid.joins - {env.cid} else mid.joins
    ensures Handled(cfg, nodeName, env, before, after)
  {
    assert HandledWith(cfg, nodeName, env, input, before, after);
  }

  // ---------- The process ----------

  class AgentHandler {
    const cfg: Config
    const nodeName: Name
    const broker: Broker
    const brain: Agent.Brain
    var joins: map<Cid, Received>
    var asked: nat
    ghost var model: Node

    /** Memory, changelog and topic list are those of the model; a dead process has no memory. */
    ghost predicate Valid()
      reads this, broker
    {
      && broker.changelog == model.changelog && |broker.outputs| == cfg.outputs
      && (!model.phase.Down? ==> joins == model.joins)
    }

    constructor (cfg: Config, nodeName: Name, broker: Broker, brain: Agent.Brain, ghost before: Node)
      requires before.phase.Down? && broker.changelog == before.changelog && |broker.outputs| == cfg.outputs
      ensures this.cfg == cfg && this.nodeName == nodeName && this.broker == broker && this.brain == brain
      ensures model == before && Valid()
    {
      this.cfg := cfg;
      this.brain, asked := brain, 0;
      this.nodeName := nodeName;
      this.broker := broker;
      joins := map[];
      model := before;
    }

    ghost function Look(): View
      reads this, broker
    {
      View(joins, model.attempts, broker.outputs)
    }

    /** log.Fatalf: the process is gone, whatever it had sent stays sent. */
    ghost method Die(start: Node)
      requires Reaches(cfg, start, model) && !model.phase.Down?
      requires broker.changelog == model.changelog && |broker.outputs| == cfg.outputs
      modifies this`model
      ensures Reaches(cfg, start, model) && model == DoCrash(old(model)) && Valid()
    {
      ReachesStep(cfg, start, model, Crash);
      model := DoCrash(model);
    }

    /** Puts the contribution into the join in memory and writes the join to the changelog. */
    method WriteJoinState(ghost p: nat, env: Msg) returns (st: Received, ok: bool)
      requires cfg.FanIn() && Valid() && CanTake(model, p) && env == model.lanes[p].log[model.lanes[p].marked]
      modifies this, broker`changelog, broker`tried
      ensures Valid() && Reaches(cfg, old(model), model) && (!ok <==> model.phase.Down?)
      ensures ok ==>
                && model == DoJoin(old(model), p) && st == Contributed(old(joins), env)
                && joins == old(joins)[env.cid := st]
      ensures ok ==> Contributes(old(joins), joins, env)
      ensures ok ==> broker.changelog == old(broker.changelog) + [Record(env.cid, State(joins[env.cid]))]
      ensures !ok ==> model == DoCrash(old(model)) || model == DoCrash(DoJoin(old(model), p))
    {
      ghost var start := model;
      ReachesSelf(cfg, start);
      ReachesStep(cfg, start, model, Step.Join(p));
      st := if env.cid in joins then joins[env.cid] else map[];
      st := st[env.source := env.data];
      joins := joins[env.cid := st];
      ok := broker.SendRecord(Record(env.cid, State(st)));
      if broker.changelog == start.changelog + [Record(env.cid, State(st))] {
        model := DoJoin(start, p);
      }
      if !ok {
        Die(start);
      }
    }

    /** Records a contribution and says whether every dependency has reported in; a failure marks nothing. */
    method Join(ghost p: nat, env: Msg) returns (merged: Data, ready: bool, status: Status)
      requires Valid() && CanTake(model, p) && env == model.lanes[p].log[model.lanes[p].marked]
      modifies this, broker`changelog, broker`tried
      ensures Valid() && Reaches(cfg, old(model), model) && (status == Fatal <==> model.phase.Down?)
      ensures !cfg.FanIn() ==> status == Alive && ready && merged == env.data && model == DoPassThrough(old(model), p)
      ensures cfg.FanIn() && status == Alive ==>
                && model == DoJoin(old(model), p)
                && joins == old(joins)[env.cid := Contributed(old(joins), env)]
                && (ready <==> |joins[env.cid]| >= |cfg.deps|) && (ready ==> IsMerge(joins[env.cid], merged))
      ensures cfg.FanIn() && status == Alive ==> Contributes(old(joins), joins, env)
      ensures SameCommits(old(model), model)
    {
      merged, status := map[], Alive;
      if |cfg.deps| <= 1 {
        ReachesSelf(cfg, model);
        ReachesStep(cfg, model, model, PassThrough(p));
        model := DoPassThrough(model, p);
        merged, ready := env.data, true;
        return;
      }
      ghost var start := model;
      JoinCommitsNothing(start, p);
      var st, ok := WriteJoinState(p, env);
      if !ok {
        return map[], false, Fatal;
      }
      if |st| < |cfg.deps| {
        ready := false;
        return;
      }
      merged := MergeJoinedData(st);
      ready := true;
    }

    /** Succeeds exactly if the model finishes on this task, with its final reply folded into the data. */
    method AgentLoop(data: Data) returns (out: Data, ok: bool)
      modifies this`asked
      ensures asked == old(asked) + 1
      ensures ok <==> Agent.Finishes(brain, old(asked), data)
      ensures ok ==> Agent.Outcome(brain, old(asked), data, out) && data.Keys <= out.Keys
    {
      ghost var requests;
      out, ok, requests := Agent.AgentLoop(brain.configured, brain.marshal, brain.prompt, brain.chat(asked),
                                           brain.tools(asked), brain.parse, data);
      asked := asked + 1;
    }

    /** Every output topic up to `upto` got exactly one copy of m more than in `before`. */
    ghost predicate SentUpTo(before: seq<seq<Msg>>, m: Msg, upto: nat)
      reads broker
    {
      && |broker.outputs| == |before|
      && forall k :: 0 <= k < |before| ==> broker.outputs[k] == if k < upto then before[k] + [m] else before[k]
    }

    /** Sends the envelope to the next output topic; a failed send may have landed and takes the process down. */
    method SendNext(ghost w: Worker, k: nat, payload: Msg) returns (ok: bool)
      requires Valid() && CanLand(cfg, model, w) && k < |broker.outputs|
      modifies this`model, broker`outputs
      ensures Valid() && Reaches(cfg, old(model), model)
      ensures ok ==>
                && model == DoLand(old(model), w)
                && broker.outputs == old(broker.outputs)[k := old(broker.outputs)[k] + [payload]]
      ensures !ok ==>
                || (model == DoCrash(old(model)) && broker.outputs == old(broker.outputs))
                || (model == DoCrash(DoLand(old(model), w)) &&
                    broker.outputs == old(broker.outputs)[k := old(broker.outputs)[k] + [payload]])
    {
      ghost var start, before := model, broker.outputs;
      ReachesSelf(cfg, start);
      ReachesStep(cfg, start, start, Land(w));
      ok := broker.SendOutput(k, payload);
      if broker.outputs == before[k := before[k] + [payload]] {
        model := DoLand(model, w);
      }
      if !ok {
        Die(start);
      }
    }

    /** Attempt a, in w's hands, has reached k topics, and nothing else has changed since. */
    ghost predicate AtTopic(start: Node, w: Worker, a: nat, k: nat)
      reads this
    {
      && IsPublishing(model, w) && PcOf(model, w) == Publishing(a) && |model.attempts[a].landed| == k
      && |model.attempts| == |start.attempts| && model == start.(attempts := model.attempts)
      && model.attempts == start.attempts[a := start.attempts[a].(landed := model.attempts[a].landed)]
    }

    /** Sends the envelope to the output topics in order; on failure exactly a prefix was reached. */
    method Publish(ghost w: Worker, ghost a: nat, cid: Cid, data: Data) returns (status: Status)
      requires Valid() && IsPublishing(model, w) && PcOf(model, w) == Publishing(a) && model.attempts[a].landed == []
      requires model.attempts[a].cid == cid && model.attempts[a].out == data
      modifies this`model, broker`outputs
      ensures Valid() && Reaches(cfg, old(model), model) && (status == Fatal <==> model.phase.Down?)
      ensures status == Alive ==> SentUpTo(old(broker.outputs), Msg(cid, nodeName, data), cfg.outputs)
      ensures status == Fatal ==>
                exists k :: 0 <= k <= cfg.outputs && SentUpTo(old(broker.outputs), Msg(cid, nodeName, data), k)
      ensures status == Alive ==> AtTopic(old(model), w, a, cfg.outputs)
      ensures |model.attempts| == |old(model).attempts|
      ensures model.attempts == old(model).attempts[a := old(model).attempts[a].(landed := model.attempts[a].landed)]
    {
      ghost var start := model;
      ReachesSelf(cfg, start);
      var payload := Msg(cid, nodeName, data);
      for k := 0 to |broker.outputs|
        invariant Valid() && !model.phase.Down? && Reaches(cfg, start, model)
        invariant SentUpTo(old(broker.outputs), payload, k) && AtTopic(start, w, a, k)
      {
        ghost var mid := model;
        var ok := SendNext(w, k, payload);
        ReachesVia(cfg, start, mid, model);
        if !ok {
          assert SentUpTo(old(broker.outputs), payload, k) || SentUpTo(old(broker.outputs), payload, k + 1);
          return Fatal;
        }
      }
      status := Alive;
    }

    /** The one attempt a completed call adds: it reached every topic with a result that keeps the input. */
    ghost predicate NewAttempt(before: Node, cid: Cid, received: Received, input: Data)
      reads this, broker
    {
      && |model.attempts| == |before.attempts| + 1 && before.attempts <= model.attempts
      && var t := model.attempts[|before.attempts|];
         t.cid == cid && t.received == received && t.input == input && input.Keys <= t.out.Keys && Complete(cfg, t)
    }

    /** Runs the agent on the data and publishes what it answers. */
    method AnswerAndPublish(ghost w: Worker, cid: Cid, data: Data, ghost received: Received) returns (status: Status)
      requires Valid() && Live(model, w) && PcOf(model, w) == Ready(cid, received, data)
      modifies this, broker`outputs
      ensures Valid() && Reaches(cfg, old(model), model) && (status == Fatal <==> model.phase.Down?)
      ensures status == Alive ==>
                && NewAttempt(old(model), cid, received, data) && joins == old(joins)
                && SentUpTo(old(broker.outputs), Msg(cid, nodeName, model.attempts[|old(model).attempts|].out),
                  cfg.outputs)
                && model == WithPc(old(model), w, Publishing(|old(model).attempts|)).(attempts := model.attempts)
      ensures old(model).attempts <= model.attempts && AllAnswered(brain, model.attempts, |old(model).attempts|)
      ensures status == Fatal ==> PartlySent(old(broker.outputs), cid, data)
    {
      ghost var start := model;
      ghost var a := |model.attempts|;
      ReachesSelf(cfg, start);
      var out, answered := AgentLoop(data);
      if !answered {
        Die(start);
        return Fatal;
      }
      ReachesStep(cfg, start, model, RunAgent(w, out));
      model := DoRunAgent(model, w, out);
      ghost var running := model;
      assert Says(brain, data, out);
      status := Publish(w, a, cid, out);
      assert running.attempts == start.attempts + [running.attempts[a]];
      NewestAnswered(brain, start.attempts, running.attempts[a], model.attempts);
      ReachesVia(cfg, start, running, model);
    }

    /** Nothing was sent, or the agent's answer to this data reached a prefix of the topics. */
    ghost predicate PartlySent(before: seq<seq<Msg>>, cid: Cid, data: Data)
      reads this, broker
    {
      || broker.outputs == before
      || exists out, k ::
           Says(brain, data, out) && 0 <= k <= cfg.outputs && SentUpTo(before, Msg(cid, nodeName, out), k)
    }

    /** Runs the agent, publishes, and for a fan-in node forgets the join in memory and in the changelog. */
    method CompleteCorrelation(ghost w: Worker, cid: Cid, data: Data, ghost received: Received) returns (status: Status)
      requires Valid() && Live(model, w) && PcOf(model, w) == Ready(cid, received, data)
      modifies this, broker
      ensures Valid() && Reaches(cfg, old(model), model) && (status == Fatal <==> model.phase.Down?)
      ensures status == Alive ==>
                && NewAttempt(old(model), cid, received, data)
                && SentUpTo(old(broker.outputs), Msg(cid, nodeName, model.attempts[|old(model).attempts|].out),
                  cfg.outputs)
                && joins == (if cfg.FanIn() then old(joins) - {cid} else old(joins))
                && (broker.changelog == old(broker.changelog) ||
                    (cfg.FanIn() && broker.changelog == old(broker.changelog) + [Record(cid, Tombstone)]))
                && model == WithPc(old(model), w, if cfg.FanIn() then Idle else Unmarked(|old(model).attempts|))
                              .(attempts := model.attempts, joins := joins, changelog := broker.changelog)
      ensures old(model).attempts <= model.attempts && AllAnswered(brain, model.attempts, |old(model).attempts|)
      ensures status == Fatal ==> PartlySent(old(broker.outputs), cid, data)
      ensures status == Alive ==>
                broker.tried == old(broker.tried) + if cfg.FanIn() then [Record(cid, Tombstone)] else []
    {
      ghost var start := model;
      status := AnswerAndPublish(w, cid, data, received);
      if status == Alive {
        ghost var published := model;
        Forget(w, |start.attempts|, cid);
        ReachesVia(cfg, start, published, model);
      }
    }

    /** A fan-in node drops the published join and tombstones its key; losing the tombstone is not fatal. */
    method Forget(ghost w: Worker, ghost a: nat, cid: Cid)
      requires Valid() && CanFinish(cfg, model, w) && PcOf(model, w) == Publishing(a) && model.attempts[a].cid == cid
      modifies this, broker`changelog, broker`tried
      ensures Valid() && Reaches(cfg, old(model), model) && !model.phase.Down?
      ensures joins == (if cfg.FanIn() then old(joins) - {cid} else old(joins))
      ensures broker.changelog == old(broker.changelog) ||
              (cfg.FanIn() && broker.changelog == old(broker.changelog) + [Record(cid, Tombstone)])
      ensures model == WithPc(old(model), w, if cfg.FanIn() then Idle else Unmarked(a))
                       .(joins := joins, changelog := broker.changelog)
      ensures broker.tried == old(broker.tried) + if cfg.FanIn() then [Record(cid, Tombstone)] else []
    {
      ghost var start := model;
      ReachesSelf(cfg, start);
      ReachesStep(cfg, start, model, Finish(w));
      model := DoFinish(cfg, model, w);
      if |cfg.deps| <= 1 {
        return;
      }
      joins := joins - {cid};
      ReachesStep(cfg, start, model, Bury(w, true));
      ReachesStep(cfg, start, model, Bury(w, false));
      var buried := broker.SendRecord(Record(cid, Tombstone));
      model := DoBury(model, w, broker.changelog != start.changelog);
    }

    /** Joins the message, and for a fan-in node marks it, now that its contribution is durable. */
    method JoinAndMark(ghost p: nat, env: Msg) returns (merged: Data, ready: bool, status: Status)
      requires Valid() && CanTake(model, p) && env == model.lanes[p].log[model.lanes[p].marked]
      modifies this, broker`changelog, broker`tried
      ensures Valid() && Reaches(cfg, old(model), model) && (status == Fatal <==> model.phase.Down?)
      ensures status == Alive ==>
                (ready <==> Completes(cfg, old(joins), env)) && Joined(old(model), old(joins), p, env, merged)
      ensures cfg.FanIn() && status == Alive ==> Contributes(old(joins), joins, env)
      ensures model.attempts == old(model).attempts
    {
      ghost var start := model;
      merged, ready, status := Join(p, env);
      if status == Alive && |cfg.deps| > 1 {
        ReachesStep(cfg, start, model, MarkJoined(p, merged));
        model := DoMarkJoined(cfg, model, p, merged);
      }
    }

    /** Where the goroutine stands once the message is joined. */
    ghost predicate Joined(before: Node, joinsBefore: Joins, p: nat, env: Msg, merged: Data)
      reads this
    {
      && Live(model, Consumer(p)) && p < |before.lanes| && model.lanes[p].log == before.lanes[p].log
      && model.attempts == before.attempts
      && if !cfg.FanIn() then
           && joins == joinsBefore && merged == env.data && model.lanes[p].marked == before.lanes[p].marked
           && model.lanes[p].pc == Ready(env.cid, map[], merged)
         else
           && joins == joinsBefore[env.cid := Contributed(joinsBefore, env)]
           && model.lanes[p].marked == before.lanes[p].marked + 1
           && if Completes(cfg, joinsBefore, env) then
                && IsMerge(Contributed(joinsBefore, env), merged)
                && model.lanes[p].pc == Ready(env.cid, Contributed(joinsBefore, env), merged)
              else model.lanes[p].pc == Idle
    }

    /** Completes the message's correlation ID, and for a straight-through node only then marks the message. */
    method CompleteAndMark(ghost p: nat, cid: Cid, data: Data, ghost received: Received) returns (status: Status)
      requires Valid() && Live(model, Consumer(p)) && model.lanes[p].pc == Ready(cid, received, data)
      modifies this, broker
      ensures Valid() && Reaches(cfg, old(model), model) && (status == Fatal <==> model.phase.Down?)
      ensures status == Alive ==>
                && Live(model, Consumer(p)) && model.lanes[p].pc.Idle? && model.lanes[p].log == old(model).lanes[p].log
                && model.lanes[p].marked == old(model).lanes[p].marked + (if cfg.FanIn() then 0 else 1)
      ensures status == Alive ==>
                && OneMore(cfg, nodeName, cid, data, old(Look()), Look())
                && joins == (if cfg.FanIn() then old(joins) - {cid} else old(joins))
      ensures old(model).attempts <= model.attempts && AllAnswered(brain, model.attempts, |old(model).attempts|)
    {
      ghost var start := model;
      status := CompleteCorrelation(Consumer(p), cid, data, received);
      if status == Alive && |cfg.deps| <= 1 {
        ReachesStep(cfg, start, model, MarkPublished(p));
        model := DoMarkPublished(model, p);
      }
    }

    /** One turn of the consumer's loop; the offset is marked before the agent runs only once the join is durable. */
    method HandleMessage(ghost p: nat, env: Msg) returns (status: Status)
      requires Valid() && CanTake(model, p) && env == model.lanes[p].log[model.lanes[p].marked]
      modifies this, broker
      ensures Valid() && Reaches(cfg, old(model), model) && (status == Fatal <==> model.phase.Down?)
      ensures status == Alive ==>
                && Live(model, Consumer(p)) && model.lanes[p].pc.Idle? && model.lanes[p].log == old(model).lanes[p].log
                && model.lanes[p].marked == old(model).lanes[p].marked + 1
      ensures status == Alive ==> Handled(cfg, nodeName, env, old(Look()), Look())
      ensures old(model).attempts <= model.attempts && AllAnswered(brain, model.attempts, |old(model).attempts|)
    {
      ghost var start, before := model, Look();
      var merged, ready;
      merged, ready, status := JoinAndMark(p, env);
      if status == Alive && ready {
        ghost var mid, joined := model, Look();
        status := CompleteAndMark(p, env.cid, merged, model.lanes[p].pc.received);
        ReachesVia(cfg, start, mid, model);
        if status == Alive {
          JoinedThenCompleted(cfg, nodeName, env, merged, before, joined, Look());
        }
      }
    }

    /** Works through everything currently in one partition. */
    method ConsumeClaim(ghost p: nat, messages: seq<Msg>) returns (status: Status)
      requires Valid() && Live(model, Consumer(p)) && model.lanes[p].pc.Idle?
      requires model.lanes[p].marked <= |model.lanes[p].log|
      requires messages == model.lanes[p].log[model.lanes[p].marked..]
      modifies this, broker
      ensures Valid() && Reaches(cfg, old(model), model) && (status == Fatal <==> model.phase.Down?)
      ensures status == Alive ==>
                Live(model, Consumer(p)) && model.lanes[p].pc.Idle? && model.lanes[p].marked == |model.lanes[p].log|
      ensures status == Alive ==> HandledAll(cfg, nodeName, messages, old(Look()), Look())
      ensures old(model).attempts <= model.attempts && AllAnswered(brain, model.attempts, |old(model).attempts|)
    {
      ghost var start, before := model, Look();
      ReachesSelf(cfg, start);
      for i := 0 to |messages|
        invariant HandledAll(cfg, nodeName, messages[..i], before, Look())
        invariant start.attempts <= model.attempts && AllAnswered(brain, model.attempts, |start.attempts|)
        invariant Valid() && Reaches(cfg, start, model) && Live(model, Consumer(p)) && model.lanes[p].pc.Idle?
        invariant model.lanes[p].log == start.lanes[p].log && model.lanes[p].marked == start.lanes[p].marked + i
      {
        ghost var mid, midView := model, Look();
        status := HandleMessage(p, messages[i]);
        ReachesVia(cfg, start, mid, model);
        assert model.attempts[..|mid.attempts|] == mid.attempts;
        AnsweredThen(brain, mid.attempts, model.attempts, |start.attempts|);
        if status == Fatal {
          return;
        }
        HandledNext(cfg, nodeName, messages, i, before, midView, Look());
      }
      assert messages[..|messages|] == messages;
      status := Alive;
    }

    ghost function Hydrated(log: seq<Record>): Joins {
      if cfg.FanIn() then Replay(log) else map[]
    }

    /** What recovery leaves of the hydrated joins once only those in `rest` are still to be looked at. */
    ghost function Pending(kept: Joins, rest: set<Cid>): Joins {
      map c | c in kept && (c in rest || |kept[c]| < |cfg.deps|) :: kept[c]
    }

    lemma PendingStep(kept: Joins, rest: set<Cid>, c: Cid)
      requires c in rest && c in kept
      ensures c in Pending(kept, rest) && Pending(kept, rest)[c] == kept[c]
      ensures Pending(kept, rest - {c}) == if |kept[c]| >= |cfg.deps| then Pending(kept, rest) - {c}
              else Pending(kept, rest)
    {
    }

    /** Completes a hydrated join that was full before the restart. */
    method RecoverFull(c: Cid) returns (status: Status)
      requires cfg.FanIn() && Valid() && model.phase == Recovering(Idle) && c in joins && |joins[c]| >= |cfg.deps|
      modifies this, broker
      ensures Valid() && Reaches(cfg, old(model), model) && (status == Fatal <==> model.phase.Down?)
      ensures status == Alive ==> model.phase == Recovering(Idle) && joins == old(joins) - {c}
      ensures status == Alive ==>
                OneCaught(cfg, nodeName, c, old(joins)[c], old(model).attempts, model.attempts, old(broker.outputs),
                  broker.outputs)
      ensures old(model).attempts <= model.attempts && AllAnswered(brain, model.attempts, |old(model).attempts|)
    {
      ghost var start, received, sent := model, joins[c], broker.outputs;
      ReachesSelf(cfg, start);
      var data := MergeJoinedData(joins[c]);
      ReachesStep(cfg, start, model, Recover(c, data));
      model := DoRecover(model, c, data);
      ghost var mid := model;
      status := CompleteCorrelation(Recovery, c, data, received);
      ReachesVia(cfg, start, mid, model);
      if status == Alive {
        CaughtByCompletion(cfg, nodeName, c, received, data, start.attempts, model.attempts, sent, broker.outputs);
      }
    }

    /** One turn of the recovery loop. */
    method RecoverOne(c: Cid) returns (status: Status)
      requires cfg.FanIn() && Valid() && model.phase == Recovering(Idle) && c in joins
      modifies this, broker
      ensures Valid() && Reaches(cfg, old(model), model) && (status == Fatal <==> model.phase.Down?)
      ensures status == Alive ==> model.phase == Recovering(Idle)
      ensures status == Alive ==> joins == if |old(joins)[c]| >= |cfg.deps| then old(joins) - {c} else old(joins)
      ensures status == Alive ==>
                OneCaught(cfg, nodeName, c, old(joins)[c], old(model).attempts, model.attempts, old(broker.outputs),
                  broker.outputs)
      ensures old(model).attempts <= model.attempts && AllAnswered(brain, model.attempts, |old(model).attempts|)
    {
      ReachesSelf(cfg, model);
      status := Alive;
      if |joins[c]| >= |cfg.deps| {
        status := RecoverFull(c);
      }
    }

    /** The recovery loop, over the hydrated joins in any order. */
    method RecoverAll() returns (status: Status)
      requires cfg.FanIn() && Valid() && model.phase == Recovering(Idle)
      modifies this, broker
      ensures Valid() && Reaches(cfg, old(model), model) && (status == Fatal <==> model.phase.Down?)
      ensures status == Alive ==>
                && model.phase == Recovering(Idle) && joins == Pending(old(joins), {})
                && AllCaught(cfg, nodeName, old(joins), {}, old(model).attempts, model.attempts, old(broker.outputs),
                             broker.outputs)
      ensures old(model).attempts <= model.attempts && AllAnswered(brain, model.attempts, |old(model).attempts|)
    {
      ghost var start, kept, sent := model, joins, broker.outputs;
      ReachesSelf(cfg, start);
      var rest := joins.Keys;
      assert Pending(kept, rest) == kept;
      NothingCaughtYet(cfg, nodeName, kept, model.attempts, sent);
      while rest != {}
        invariant Valid() && Reaches(cfg, start, model) && model.phase == Recovering(Idle)
        invariant rest <= kept.Keys && joins == Pending(kept, rest)
        invariant AllCaught(cfg, nodeName, kept, rest, start.attempts, model.attempts, sent, broker.outputs)
        invariant AllAnswered(brain, model.attempts, |start.attempts|)
        decreases rest
      {
        var c :| c in rest;
        ghost var mid, midSent := model, broker.outputs;
        PendingStep(kept, rest, c);
        status := RecoverOne(c);
        ReachesVia(cfg, start, mid, model);
        assert model.attempts[..|mid.attempts|] == mid.attempts;
        AnsweredThen(brain, mid.attempts, model.attempts, |start.attempts|);
        if status == Fatal {
          return;
        }
        RecoveryStep(cfg, nodeName, kept, rest, c, start.attempts, mid.attempts, model.attempts, sent, midSent,
                     broker.outputs);
        rest := rest - {c};
      }
      status := Alive;
    }

    /**
     Start-up: hydrate from the changelog's partitions, then finish every join that was already complete, then
     consume. A node that does not join has no changelog to read.
     */
    method Boot(parts: seq<Partition>, order: seq<nat>, ghost part: Cid -> nat) returns (status: Status)
      requires Valid() && model.phase.Down?
      requires cfg.FanIn() ==> Serves(parts, order, broker.changelog, part)
      modifies this, broker
      ensures Valid() && Reaches(cfg, old(model), model) && (status == Fatal <==> model.phase.Down?)
      ensures status == Alive ==>
                && model.phase.Running? && joins == Pending(Hydrated(old(broker.changelog)), {})
                && AllCaught(cfg, nodeName, Hydrated(old(broker.changelog)), {}, old(model).attempts, model.attempts,
                             old(broker.outputs), broker.outputs)
      ensures old(model).attempts <= model.attempts && AllAnswered(brain, model.attempts, |old(model).attempts|)
    {
      ghost var start := model;
      ReachesSelf(cfg, start);
      ReachesStep(cfg, start, model, Restart);
      status, joins := Alive, map[];
      model := DoRestart(cfg, model);
      if |cfg.deps| > 1 {
        var connected: bool := *;
        if !connected {
          Die(start);
          return Fatal;
        }
        var hydrated := HydrateJoinState(parts, order);
        joins := hydrated.value;
        ghost var mid := model;
        status := RecoverAll();
        ReachesVia(cfg, start, mid, model);
        if status == Fatal {
          return;
        }
      }
      ReachesStep(cfg, start, model, StartConsuming);
      model := DoStart(model);
    }
  }
}
