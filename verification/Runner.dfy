/**
 One node's runner as a state machine over its durable state (input partitions, committed offsets,
 changelog) and its volatile state (joins, marked offsets, where each goroutine stands). A `Crash`
 may come between any two steps; a failed send is the same send, landed or not, followed by a crash.
 `attempts` and `stamps` are history: they record what happened and guide no step.
 */
module Runner {
  import opened Types
  import opened Changelog
  import opened Merge

  /** What the environment tells a runner; `part` is the producer's key partitioner. */
  datatype Config = Config(deps: seq<Name>, outputs: nat, lanes: nat, part: Cid -> nat) {
    predicate FanIn() { |deps| > 1 }
  }

  /** One pass through the agent loop and `publish`: `landed` lists the output topics reached. */
  datatype Attempt = Attempt(cid: Cid, lane: nat, offset: nat, received: Received, input: Data, out: Data,
    landed: seq<nat>)

  datatype Pc =
    | Idle
    | Recorded(cid: Cid)
    | Ready(cid: Cid, received: Received, input: Data)
    | Publishing(a: nat)
    | Tombstoning(a: nat)
    | Unmarked(a: nat)

  /** One input partition. stamps[i] is the number of attempts begun when offset i was last recorded. */
  datatype Lane = Lane(log: seq<Msg>, committed: nat, marked: nat, pc: Pc, stamps: map<nat, nat>)

  datatype Phase = Down | Recovering(pc: Pc) | Running

  datatype Node = Node(lanes: seq<Lane>, phase: Phase, joins: Joins, changelog: seq<Record>, attempts: seq<Attempt>)

  datatype Worker = Recovery | Consumer(p: nat)

  datatype Step =
    | Deliver(p: nat, m: Msg)
    | Join(p: nat)
    | PassThrough(p: nat)
    | MarkJoined(p: nat, input: Data)
    | RunAgent(w: Worker, out: Data)
    | Land(w: Worker)
    | Finish(w: Worker)
    | Bury(w: Worker, landed: bool)
    | MarkPublished(p: nat)
    | Commit(p: nat)
    | Rewind(p: nat)
    | StrayRun(p: nat, i: nat, out: Data)
    | StrayLand(a: nat)
    | Crash
    | Restart
    | Recover(c: Cid, input: Data)
    | StartConsuming
    | Compact(i: nat)

  ghost function Init(cfg: Config): Node {
    Node(seq(cfg.lanes, _ => Lane([], 0, 0, Idle, map[])), Down, map[], [], [])
  }

  predicate Live(s: Node, w: Worker) {
    match w
    case Recovery => s.phase.Recovering?
    case Consumer(p) => s.phase.Running? && p < |s.lanes|
  }

  function PcOf(s: Node, w: Worker): Pc
    requires Live(s, w)
  {
    match w
    case Recovery => s.phase.pc
    case Consumer(p) => s.lanes[p].pc
  }

  function WithPc(s: Node, w: Worker, pc: Pc): Node
    requires Live(s, w)
  {
    match w
    case Recovery => s.(phase := Recovering(pc))
    case Consumer(p) => s.(lanes := s.lanes[p := s.lanes[p].(pc := pc)])
  }

  function Contributed(joins: Joins, m: Msg): Received {
    (if m.cid in joins then joins[m.cid] else map[])[m.source := m.data]
  }

  function Stopped(lane: Lane): Lane {
    lane.(marked := lane.committed, pc := Idle)
  }

  /** The premises on an incoming fan-in message: keyed to its partition, sent by a dependency. */
  ghost predicate Admissible(cfg: Config, p: nat, m: Msg) {
    cfg.FanIn() ==> cfg.part(m.cid) == p && m.source in cfg.deps
  }

  // ---------- The steps, one guard and one effect each ----------

  /** The broker appends a message to an input partition. */
  ghost predicate CanDeliver(cfg: Config, s: Node, p: nat, m: Msg) {
    p < |s.lanes| && Admissible(cfg, p, m)
  }

  ghost function DoDeliver(s: Node, p: nat, m: Msg): Node
    requires p < |s.lanes|
  {
    s.(lanes := s.lanes[p := s.lanes[p].(log := s.lanes[p].log + [m])])
  }

  ghost predicate CanTake(s: Node, p: nat) {
    Live(s, Consumer(p)) && s.lanes[p].pc.Idle? && s.lanes[p].marked < |s.lanes[p].log|
  }

  /** A fan-in node records the next contribution in memory and in the changelog. */
  ghost function DoJoin(s: Node, p: nat): Node
    requires CanTake(s, p)
  {
    var lane := s.lanes[p];
    var m := lane.log[lane.marked];
    var received := Contributed(s.joins, m);
    s.(joins := s.joins[m.cid := received],
       changelog := s.changelog + [Record(m.cid, State(received))],
       lanes := s.lanes[p := lane.(pc := Recorded(m.cid), stamps := lane.stamps[lane.marked := |s.attempts|])])
  }

  /** A straight-through node needs no join. */
  ghost function DoPassThrough(s: Node, p: nat): Node
    requires CanTake(s, p)
  {
    var m := s.lanes[p].log[s.lanes[p].marked];
    WithPc(s, Consumer(p), Ready(m.cid, map[], m.data))
  }

  ghost predicate CanMarkJoined(cfg: Config, s: Node, p: nat, input: Data) {
    && Live(s, Consumer(p)) && s.lanes[p].pc.Recorded? && s.lanes[p].pc.cid in s.joins
    && (|s.joins[s.lanes[p].pc.cid]| >= |cfg.deps| ==> IsMerge(s.joins[s.lanes[p].pc.cid], input))
  }

  /** The recorded offset is marked; the join goes on only once the count is reached. */
  ghost function DoMarkJoined(cfg: Config, s: Node, p: nat, input: Data): Node
    requires CanMarkJoined(cfg, s, p, input)
  {
    var lane := s.lanes[p];
    var received := s.joins[lane.pc.cid];
    s.(lanes := s.lanes[p := lane.(
         marked := lane.marked + 1,
         pc := if |received| < |cfg.deps| then Idle else Ready(lane.pc.cid, received, input))])
  }

  ghost predicate CanRunAgent(s: Node, w: Worker, out: Data) {
    Live(s, w) && PcOf(s, w).Ready? && PcOf(s, w).input.Keys <= out.Keys
  }

  /** The agent loop answers; its answer is folded into the input and never drops a field. */
  ghost function DoRunAgent(s: Node, w: Worker, out: Data): Node
    requires CanRunAgent(s, w, out)
  {
    var pc := PcOf(s, w);
    var lane := if w.Consumer? then w.p else 0;
    var offset := if w.Consumer? then s.lanes[w.p].marked else 0;
    WithPc(s, w, Publishing(|s.attempts|)).(
      attempts := s.attempts + [Attempt(pc.cid, lane, offset, pc.received, pc.input, out, [])])
  }

  predicate IsPublishing(s: Node, w: Worker) {
    Live(s, w) && PcOf(s, w).Publishing? && PcOf(s, w).a < |s.attempts|
  }

  ghost predicate CanLand(cfg: Config, s: Node, w: Worker) {
    IsPublishing(s, w) && |s.attempts[PcOf(s, w).a].landed| < cfg.outputs
  }

  /** The next output topic accepts the envelope. */
  ghost function DoLand(s: Node, w: Worker): Node
    requires IsPublishing(s, w)
  {
    LandAttempt(s, PcOf(s, w).a)
  }

  ghost function LandAttempt(s: Node, a: nat): Node
    requires a < |s.attempts|
  {
    var t := s.attempts[a];
    s.(attempts := s.attempts[a := t.(landed := t.landed + [|t.landed|])])
  }

  ghost predicate CanFinish(cfg: Config, s: Node, w: Worker) {
    IsPublishing(s, w) && |s.attempts[PcOf(s, w).a].landed| == cfg.outputs
  }

  /** Every topic has it: a fan-in node forgets the join, a straight-through one may now mark. */
  ghost function DoFinish(cfg: Config, s: Node, w: Worker): Node
    requires IsPublishing(s, w)
  {
    var a := PcOf(s, w).a;
    if cfg.FanIn() then WithPc(s, w, Tombstoning(a)).(joins := s.joins - {s.attempts[a].cid})
    else WithPc(s, w, Unmarked(a))
  }

  ghost predicate CanBury(s: Node, w: Worker) {
    Live(s, w) && PcOf(s, w).Tombstoning? && PcOf(s, w).a < |s.attempts|
  }

  /** The tombstone is sent; losing it is not fatal. */
  ghost function DoBury(s: Node, w: Worker, landed: bool): Node
    requires CanBury(s, w)
  {
    WithPc(s, w, Idle).(
      changelog := if landed then s.changelog + [Record(s.attempts[PcOf(s, w).a].cid, Tombstone)] else s.changelog)
  }

  ghost predicate CanMarkPublished(s: Node, p: nat) {
    Live(s, Consumer(p)) && s.lanes[p].pc.Unmarked?
  }

  ghost function DoMarkPublished(s: Node, p: nat): Node
    requires CanMarkPublished(s, p)
  {
    s.(lanes := s.lanes[p := s.lanes[p].(marked := s.lanes[p].marked + 1, pc := Idle)])
  }

  /** The consumer group commits what is marked. */
  ghost function DoCommit(s: Node, p: nat): Node
    requires p < |s.lanes|
  {
    s.(lanes := s.lanes[p := s.lanes[p].(committed := s.lanes[p].marked)])
  }

  /** A session ends between messages; a straight-through node's partition can also be taken away in mid-message. */
  ghost predicate CanRewind(cfg: Config, s: Node, p: nat) {
    Live(s, Consumer(p)) && (s.lanes[p].pc.Idle? || !cfg.FanIn())
  }

  /**
   The partition starts again from its committed offset, in a new session of the same process or, if the node is
   straight-through, in another process: the one that had it has died or was dropped from the group.
   */
  ghost function DoRewind(s: Node, p: nat): Node
    requires p < |s.lanes|
  {
    s.(lanes := s.lanes[p := Stopped(s.lanes[p])])
  }

  /** A goroutine whose partition was taken away may still run the agent on any message of it. */
  ghost predicate CanStrayRun(cfg: Config, s: Node, p: nat, i: nat, out: Data) {
    !cfg.FanIn() && p < |s.lanes| && i < |s.lanes[p].log| && s.lanes[p].log[i].data.Keys <= out.Keys
  }

  ghost function DoStrayRun(s: Node, p: nat, i: nat, out: Data): Node
    requires p < |s.lanes| && i < |s.lanes[p].log|
  {
    var m := s.lanes[p].log[i];
    s.(attempts := s.attempts + [Attempt(m.cid, p, i, map[], m.data, out, [])])
  }

  /** And it may go on publishing; it can no longer mark or commit. */
  ghost predicate CanStrayLand(cfg: Config, s: Node, a: nat) {
    !cfg.FanIn() && a < |s.attempts| && |s.attempts[a].landed| < cfg.outputs
  }

  ghost function DoCrash(s: Node): Node {
    s.(phase := Down, joins := map[],
       lanes := seq(|s.lanes|, i requires 0 <= i < |s.lanes| => Stopped(s.lanes[i])))
  }

  /** A new process hydrates its joins from the changelog before it consumes anything. */
  ghost function DoRestart(cfg: Config, s: Node): Node {
    s.(phase := Recovering(Idle), joins := if cfg.FanIn() then Replay(s.changelog) else map[])
  }

  ghost predicate CanRecover(cfg: Config, s: Node, c: Cid, input: Data) {
    s.phase == Recovering(Idle) && c in s.joins && |s.joins[c]| >= |cfg.deps| && IsMerge(s.joins[c], input)
  }

  /** The recovery loop picks up a join that was complete before the restart. */
  ghost function DoRecover(s: Node, c: Cid, input: Data): Node
    requires c in s.joins
  {
    s.(phase := Recovering(Ready(c, s.joins[c], input)))
  }

  ghost predicate CanStart(cfg: Config, s: Node) {
    s.phase == Recovering(Idle) && forall c :: c in s.joins ==> |s.joins[c]| < |cfg.deps|
  }

  ghost function DoStart(s: Node): Node {
    s.(phase := Running)
  }

  ghost function DoCompact(s: Node, i: nat): Node
    requires i < |s.changelog|
  {
    s.(changelog := Drop(s.changelog, i))
  }

  ghost predicate Enabled(cfg: Config, s: Node, step: Step) {
    match step
    case Deliver(p, m) => CanDeliver(cfg, s, p, m)
    case Join(p) => cfg.FanIn() && CanTake(s, p)
    case PassThrough(p) => !cfg.FanIn() && CanTake(s, p)
    case MarkJoined(p, input) => cfg.FanIn() && CanMarkJoined(cfg, s, p, input)
    case RunAgent(w, out) => CanRunAgent(s, w, out)
    case Land(w) => CanLand(cfg, s, w)
    case Finish(w) => CanFinish(cfg, s, w)
    case Bury(w, _) => CanBury(s, w)
    case MarkPublished(p) => !cfg.FanIn() && CanMarkPublished(s, p)
    case Commit(p) => Live(s, Consumer(p))
    case Rewind(p) => CanRewind(cfg, s, p)
    case StrayRun(p, i, out) => CanStrayRun(cfg, s, p, i, out)
    case StrayLand(a) => CanStrayLand(cfg, s, a)
    case Crash => !s.phase.Down?
    case Restart => s.phase.Down?
    case Recover(c, input) => CanRecover(cfg, s, c, input)
    case StartConsuming => CanStart(cfg, s)
    case Compact(i) => Droppable(s.changelog, i)
  }

  ghost function Apply(cfg: Config, s: Node, step: Step): Node
    requires Enabled(cfg, s, step)
  {
    match step
    case Deliver(p, m) => DoDeliver(s, p, m)
    case Join(p) => DoJoin(s, p)
    case PassThrough(p) => DoPassThrough(s, p)
    case MarkJoined(p, input) => DoMarkJoined(cfg, s, p, input)
    case RunAgent(w, out) => DoRunAgent(s, w, out)
    case Land(w) => DoLand(s, w)
    case Finish(w) => DoFinish(cfg, s, w)
    case Bury(w, landed) => DoBury(s, w, landed)
    case MarkPublished(p) => DoMarkPublished(s, p)
    case Commit(p) => DoCommit(s, p)
    case Rewind(p) => DoRewind(s, p)
    case StrayRun(p, i, out) => DoStrayRun(s, p, i, out)
    case StrayLand(a) => LandAttempt(s, a)
    case Crash => DoCrash(s)
    case Restart => DoRestart(cfg, s)
    case Recover(c, input) => DoRecover(s, c, input)
    case StartConsuming => DoStart(s)
    case Compact(i) => DoCompact(s, i)
  }

  /** The step makes an output topic accept attempt LandedBy(s, step). */
  predicate Lands(step: Step) {
    step.Land? || step.StrayLand?
  }

  function LandedBy(s: Node, step: Step): nat
    requires step.Land? ==> Live(s, step.w) && PcOf(s, step.w).Publishing?
  {
    if step.Land? then PcOf(s, step.w).a else if step.StrayLand? then step.a else 0
  }

  // ---------- The invariant ----------

  predicate Complete(cfg: Config, t: Attempt) {
    |t.landed| == cfg.outputs
  }

  ghost predicate Attempted(attempts: seq<Attempt>, c: Cid) {
    exists a :: 0 <= a < |attempts| && attempts[a].cid == c
  }

  /** The partition correlation ID c is keyed to. */
  ghost predicate Placed(cfg: Config, lanes: seq<Lane>, c: Cid) {
    cfg.part(c) < |lanes|
  }

  /** Every contribution is a dependency's own message. */
  ghost predicate Genuine(cfg: Config, lanes: seq<Lane>, c: Cid, received: Received) {
    && Placed(cfg, lanes, c) && received != map[]
    && forall u :: u in received ==> u in cfg.deps && Msg(c, u, received[u]) in lanes[cfg.part(c)].log
  }

  /** Cursors and stamps make sense, and a stopped process holds nothing. */
  ghost predicate LaneOk(cfg: Config, p: nat, lane: Lane, begun: nat, running: bool) {
    && lane.committed <= lane.marked <= |lane.log|
    && (forall i :: i in lane.stamps ==> i < |lane.log| && lane.stamps[i] <= begun)
    && (forall i :: 0 <= i < |lane.log| ==> Admissible(cfg, p, lane.log[i]))
    && (!running ==> lane.pc == Idle && lane.marked == lane.committed)
  }

  ghost predicate Shape(cfg: Config, s: Node) {
    && |s.lanes| == cfg.lanes
    && Readable(s.changelog)
    && (s.phase.Down? ==> s.joins == map[])
    && forall p :: 0 <= p < |s.lanes| ==> LaneOk(cfg, p, s.lanes[p], |s.attempts|, s.phase.Running?)
  }

  /** Each attempt reached a prefix of the topic list, with a result that keeps every input field. */
  ghost predicate AttemptOk(cfg: Config, lanes: seq<Lane>, t: Attempt) {
    && |t.landed| <= cfg.outputs
    && (forall k :: 0 <= k < |t.landed| ==> t.landed[k] == k)
    && t.input.Keys <= t.out.Keys
    && if cfg.FanIn() then
         Genuine(cfg, lanes, t.cid, t.received) && |t.received| >= |cfg.deps| && IsMerge(t.received, t.input)
       else
         && t.lane < |lanes| && t.offset < |lanes[t.lane].log|
         && t.cid == lanes[t.lane].log[t.offset].cid && t.input == lanes[t.lane].log[t.offset].data
  }

  ghost predicate AttemptsOk(cfg: Config, s: Node) {
    forall a :: 0 <= a < |s.attempts| ==> AttemptOk(cfg, s.lanes, s.attempts[a])
  }

  // --- fan-in nodes ---

  /** No recording for c in this lane is younger than attempt a. */
  ghost predicate Covers(lane: Lane, c: Cid, a: nat) {
    forall i :: i in lane.stamps && i < |lane.log| && lane.log[i].cid == c ==> lane.stamps[i] <= a
  }

  /** Attempt t, numbered a, published this join of c to every output topic. */
  ghost predicate RetiredBy(cfg: Config, lanes: seq<Lane>, t: Attempt, a: nat, c: Cid, received: Received) {
    Complete(cfg, t) && t.cid == c && t.received == received && Placed(cfg, lanes, c)
      && Covers(lanes[cfg.part(c)], c, a)
  }

  ghost predicate Retired(cfg: Config, lanes: seq<Lane>, attempts: seq<Attempt>, c: Cid, received: Received) {
    exists a :: 0 <= a < |attempts| && RetiredBy(cfg, lanes, attempts[a], a, c, received)
  }

  ghost predicate DurableOk(cfg: Config, s: Node) {
    var kept := Replay(s.changelog);
    forall c :: c in kept ==> Genuine(cfg, s.lanes, c, kept[c])
  }

  /** Memory agrees with the changelog; what the changelog alone holds was published already. */
  ghost predicate MemoryOk(cfg: Config, s: Node) {
    var kept := Replay(s.changelog);
    !s.phase.Down? ==>
      && (forall c :: c in s.joins ==> c in kept && s.joins[c] == kept[c])
      && (forall c :: c in kept && c !in s.joins ==> Retired(cfg, s.lanes, s.attempts, c, kept[c]))
  }

  /** The correlation ID a goroutine is working on. */
  function Subject(attempts: seq<Attempt>, pc: Pc): Option<Cid> {
    match pc
    case Recorded(c) => Some(c)
    case Ready(c, _, _) => Some(c)
    case Publishing(a) => if a < |attempts| then Some(attempts[a].cid) else None
    case Tombstoning(a) => if a < |attempts| then Some(attempts[a].cid) else None
    case _ => None
  }

  ghost predicate Holds(cfg: Config, lanes: seq<Lane>, attempts: seq<Attempt>, entry: Option<Received>, a: nat) {
    && a < |attempts| && Placed(cfg, lanes, attempts[a].cid)
      && Covers(lanes[cfg.part(attempts[a].cid)], attempts[a].cid, a)
    && entry == Some(attempts[a].received)
  }

  /** What a goroutine standing at `pc` may rely on. */
  ghost predicate PcOk(cfg: Config, lanes: seq<Lane>, joins: Joins, kept: Joins, attempts: seq<Attempt>, pc: Pc) {
    match pc
    case Idle => true
    case Recorded(c) => c in joins
    case Ready(c, received, input) =>
      Lookup(joins, c) == Some(received) && |received| >= |cfg.deps| && IsMerge(received, input)
    case Publishing(a) => a < |attempts| && Holds(cfg, lanes, attempts, Lookup(joins, attempts[a].cid), a)
    case Tombstoning(a) =>
      && a < |attempts| && Holds(cfg, lanes, attempts, Lookup(kept, attempts[a].cid), a)
      && attempts[a].cid !in joins && Complete(cfg, attempts[a])
    case Unmarked(_) => false
  }

  ghost predicate ConsumerOk(cfg: Config, p: nat, lane: Lane, joins: Joins, attempts: seq<Attempt>) {
    && (Subject(attempts, lane.pc).Some? ==> cfg.part(Subject(attempts, lane.pc).value) == p)
    && (lane.pc.Recorded? ==>
          && lane.marked < |lane.log| && lane.marked in lane.stamps && lane.log[lane.marked].cid == lane.pc.cid
          && lane.pc.cid in joins && lane.log[lane.marked].source in joins[lane.pc.cid])
  }

  ghost predicate WorkersOk(cfg: Config, s: Node) {
    var kept := Replay(s.changelog);
    && (s.phase.Recovering? ==>
          PcOk(cfg, s.lanes, s.joins, kept, s.attempts, s.phase.pc) && !s.phase.pc.Recorded?)
    && (forall p :: 0 <= p < |s.lanes| ==>
          && PcOk(cfg, s.lanes, s.joins, kept, s.attempts, s.lanes[p].pc)
          && ConsumerOk(cfg, p, s.lanes[p], s.joins, s.attempts))
  }

  /** A join that is complete in memory is being finished by its partition's goroutine. */
  ghost predicate BusyOk(cfg: Config, s: Node) {
    s.phase.Running? ==> forall c :: c in s.joins && |s.joins[c]| >= |cfg.deps| ==>
      Placed(cfg, s.lanes, c) && Subject(s.attempts, s.lanes[cfg.part(c)].pc) == Some(c)
  }

  /** (c, u), recorded when `stamp` attempts had begun, was merged into a result sent to every topic. */
  ghost predicate PublishedSince(cfg: Config, attempts: seq<Attempt>, c: Cid, u: Name, stamp: nat) {
    exists a :: stamp <= a < |attempts| && attempts[a].cid == c && u in attempts[a].received
      && Complete(cfg, attempts[a])
  }

  ghost predicate Secured(cfg: Config, kept: Joins, attempts: seq<Attempt>, lane: Lane, i: nat) {
    && i < |lane.log| && i in lane.stamps
    && var m := lane.log[i];
       || (m.cid in kept && m.source in kept[m.cid])
       || PublishedSince(cfg, attempts, m.cid, m.source, lane.stamps[i])
  }

  /** No contribution below a marked offset is lost. */
  ghost predicate NothingLost(cfg: Config, s: Node) {
    var kept := Replay(s.changelog);
    forall p, i :: 0 <= p < |s.lanes| && 0 <= i < s.lanes[p].marked ==> Secured(cfg, kept, s.attempts, s.lanes[p], i)
  }

  // --- straight-through nodes ---

  ghost predicate Forwarded(cfg: Config, attempts: seq<Attempt>, p: nat, i: nat) {
    exists a :: 0 <= a < |attempts| && attempts[a].lane == p && attempts[a].offset == i && Complete(cfg, attempts[a])
  }

  /** No offset is marked before its result reached every output topic. */
  ghost predicate NothingSkipped(cfg: Config, s: Node) {
    forall p, i :: 0 <= p < |s.lanes| && 0 <= i < s.lanes[p].marked ==> Forwarded(cfg, s.attempts, p, i)
  }

  ghost predicate DirectOk(cfg: Config, p: nat, lane: Lane, attempts: seq<Attempt>) {
    match lane.pc
    case Idle => true
    case Ready(c, received, input) =>
      lane.marked < |lane.log| && c == lane.log[lane.marked].cid && input == lane.log[lane.marked].data
    case Publishing(a) =>
      a < |attempts| && attempts[a].lane == p && attempts[a].offset == lane.marked && lane.marked < |lane.log|
    case Unmarked(a) =>
      && a < |attempts| && attempts[a].lane == p && attempts[a].offset == lane.marked && lane.marked < |lane.log|
      && Complete(cfg, attempts[a])
    case _ => false
  }

  ghost predicate DirectsOk(cfg: Config, s: Node) {
    && s.joins == map[]
    && (s.phase.Recovering? ==> s.phase.pc == Idle)
    && forall p :: 0 <= p < |s.lanes| ==> DirectOk(cfg, p, s.lanes[p], s.attempts)
  }

  ghost predicate FanInOk(cfg: Config, s: Node) {
    DurableOk(cfg, s) && MemoryOk(cfg, s) && WorkersOk(cfg, s) && BusyOk(cfg, s) && NothingLost(cfg, s)
  }

  ghost predicate Inv(cfg: Config, s: Node) {
    && Shape(cfg, s)
    && AttemptsOk(cfg, s)
    && if cfg.FanIn() then FanInOk(cfg, s) else DirectsOk(cfg, s) && NothingSkipped(cfg, s)
  }
}
