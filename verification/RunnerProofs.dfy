/** Every step of a runner keeps its invariant. */
module RunnerProofs {
  import opened Types
  import opened Changelog
  import opened Runner

  // ---------- Framing ----------

  /** Logs only grow, and the history of recordings is untouched. */
  ghost predicate Grown(a: seq<Lane>, b: seq<Lane>) {
    && |a| == |b|
    && forall p :: 0 <= p < |a| ==>
         a[p].log <= b[p].log && a[p].stamps == b[p].stamps && forall i :: i in a[p].stamps ==> i < |a[p].log|
  }

  lemma GenuineGrows(cfg: Config, a: seq<Lane>, b: seq<Lane>, c: Cid, received: Received)
    requires Grown(a, b) && Genuine(cfg, a, c, received)
    ensures Genuine(cfg, b, c, received)
  {
    var p := cfg.part(c);
    forall u | u in received ensures Msg(c, u, received[u]) in b[p].log {
      var i :| 0 <= i < |a[p].log| && a[p].log[i] == Msg(c, u, received[u]);
      assert b[p].log[i] == a[p].log[i];
    }
  }

  lemma CoversGrows(cfg: Config, a: seq<Lane>, b: seq<Lane>, c: Cid, k: nat)
    requires Grown(a, b) && Placed(cfg, a, c) && Covers(a[cfg.part(c)], c, k)
    ensures Covers(b[cfg.part(c)], c, k)
  {
  }

  lemma AttemptsGrow(cfg: Config, s: Node, t: Node)
    requires AttemptsOk(cfg, s) && Grown(s.lanes, t.lanes) && s.attempts == t.attempts
    ensures AttemptsOk(cfg, t)
  {
    forall a | 0 <= a < |t.attempts| ensures AttemptOk(cfg, t.lanes, t.attempts[a]) {
      assert AttemptOk(cfg, s.lanes, s.attempts[a]);
      if cfg.FanIn() {
        GenuineGrows(cfg, s.lanes, t.lanes, t.attempts[a].cid, t.attempts[a].received);
      }
    }
  }

  lemma RetiredGrows(cfg: Config, a: seq<Lane>, b: seq<Lane>, attempts: seq<Attempt>, c: Cid, received: Received)
    requires Grown(a, b) && Retired(cfg, a, attempts, c, received)
    ensures Retired(cfg, b, attempts, c, received)
  {
    var k :| 0 <= k < |attempts| && RetiredBy(cfg, a, attempts[k], k, c, received);
    CoversGrows(cfg, a, b, c, k);
    assert RetiredBy(cfg, b, attempts[k], k, c, received);
  }

  lemma StoreGrows(cfg: Config, s: Node, t: Node)
    requires DurableOk(cfg, s) && MemoryOk(cfg, s) && Grown(s.lanes, t.lanes)
    requires s.attempts == t.attempts && Replay(s.changelog) == Replay(t.changelog)
    requires !t.phase.Down? ==> !s.phase.Down? && s.joins == t.joins
    ensures DurableOk(cfg, t) && MemoryOk(cfg, t)
  {
    var kept := Replay(s.changelog);
    forall c | c in kept ensures Genuine(cfg, t.lanes, c, kept[c]) {
      GenuineGrows(cfg, s.lanes, t.lanes, c, kept[c]);
    }
    forall c | !t.phase.Down? && c in kept && c !in t.joins ensures Retired(cfg, t.lanes, t.attempts, c, kept[c]) {
      RetiredGrows(cfg, s.lanes, t.lanes, s.attempts, c, kept[c]);
    }
  }

  lemma PcGrows(cfg: Config, a: seq<Lane>, b: seq<Lane>, joins: Joins, kept: Joins, attempts: seq<Attempt>, pc: Pc)
    requires Grown(a, b) && PcOk(cfg, a, joins, kept, attempts, pc)
    ensures PcOk(cfg, b, joins, kept, attempts, pc)
  {
    if pc.Publishing? || pc.Tombstoning? {
      CoversGrows(cfg, a, b, attempts[pc.a].cid, pc.a);
    }
  }

  // ---------- Steps that touch cursors, logs and phases only ----------

  lemma CrashKeeps(cfg: Config, s: Node)
    requires Inv(cfg, s) && !s.phase.Down?
    ensures Inv(cfg, DoCrash(s))
  {
    var t := DoCrash(s);
    assert Grown(s.lanes, t.lanes);
    AttemptsGrow(cfg, s, t);
    if cfg.FanIn() {
      StoreGrows(cfg, s, t);
      var kept := Replay(s.changelog);
      forall p, i | 0 <= p < |t.lanes| && 0 <= i < t.lanes[p].marked
        ensures Secured(cfg, kept, t.attempts, t.lanes[p], i)
      {
        assert Secured(cfg, kept, s.attempts, s.lanes[p], i);
      }
    }
  }

  lemma RestartKeeps(cfg: Config, s: Node)
    requires Inv(cfg, s) && s.phase.Down?
    ensures Inv(cfg, DoRestart(cfg, s))
  {
  }

  lemma StartKeeps(cfg: Config, s: Node)
    requires Inv(cfg, s) && CanStart(cfg, s)
    ensures Inv(cfg, DoStart(s))
  {
  }

  lemma RecoverKeeps(cfg: Config, s: Node, c: Cid, input: Data)
    requires Inv(cfg, s) && CanRecover(cfg, s, c, input)
    ensures Inv(cfg, DoRecover(s, c, input))
  {
  }

  lemma CompactKeeps(cfg: Config, s: Node, i: nat)
    requires Inv(cfg, s) && Droppable(s.changelog, i)
    ensures Inv(cfg, DoCompact(s, i))
  {
    CompactionStep(s.changelog, i);
  }

  lemma OneLaneGrows(cfg: Config, s: Node, p: nat, lane: Lane)
    requires Shape(cfg, s) && p < |s.lanes| && s.lanes[p].log <= lane.log && s.lanes[p].stamps == lane.stamps
    ensures Grown(s.lanes, s.lanes[p := lane])
  {
    forall q | 0 <= q < |s.lanes| ensures forall i :: i in s.lanes[q].stamps ==> i < |s.lanes[q].log| {
      assert LaneOk(cfg, q, s.lanes[q], |s.attempts|, s.phase.Running?);
    }
  }

  /** Delivering, committing, rewinding and marking: one lane changes, memory and changelog do not. */
  lemma LaneChange(cfg: Config, s: Node, t: Node, p: nat)
    requires cfg.FanIn() && Inv(cfg, s) && p < |s.lanes| && p < |t.lanes|
    requires t == s.(lanes := s.lanes[p := t.lanes[p]])
    requires s.lanes[p].log <= t.lanes[p].log && s.lanes[p].stamps == t.lanes[p].stamps
    requires LaneOk(cfg, p, t.lanes[p], |s.attempts|, s.phase.Running?)
    requires PcOk(cfg, s.lanes, s.joins, Replay(s.changelog), s.attempts, t.lanes[p].pc)
    requires ConsumerOk(cfg, p, t.lanes[p], s.joins, s.attempts)
    requires forall c :: c in s.joins && |s.joins[c]| >= |cfg.deps| && Subject(s.attempts, s.lanes[p].pc) == Some(c) ==>
               Subject(s.attempts, t.lanes[p].pc) == Some(c)
    requires forall i :: 0 <= i < t.lanes[p].marked ==> Secured(cfg, Replay(s.changelog), s.attempts, s.lanes[p], i)
    ensures Inv(cfg, t)
  {
    OneLaneGrows(cfg, s, p, t.lanes[p]);
    AttemptsGrow(cfg, s, t);
    StoreGrows(cfg, s, t);
    LaneWorkers(cfg, s, t, p);
    forall q, i | 0 <= q < |t.lanes| && 0 <= i < t.lanes[q].marked
      ensures Secured(cfg, Replay(t.changelog), t.attempts, t.lanes[q], i)
    {
      assert Secured(cfg, Replay(s.changelog), s.attempts, s.lanes[q], i);
    }
  }

  lemma LaneWorkers(cfg: Config, s: Node, t: Node, p: nat)
    requires WorkersOk(cfg, s) && Grown(s.lanes, t.lanes) && p < |s.lanes| && p < |t.lanes|
    requires t == s.(lanes := s.lanes[p := t.lanes[p]])
    requires PcOk(cfg, s.lanes, s.joins, Replay(s.changelog), s.attempts, t.lanes[p].pc)
    requires ConsumerOk(cfg, p, t.lanes[p], s.joins, s.attempts)
    ensures WorkersOk(cfg, t)
  {
    var kept := Replay(s.changelog);
    if t.phase.Recovering? {
      PcGrows(cfg, s.lanes, t.lanes, s.joins, kept, s.attempts, s.phase.pc);
    }
    forall q | 0 <= q < |t.lanes|
      ensures PcOk(cfg, t.lanes, t.joins, kept, t.attempts, t.lanes[q].pc)
              && ConsumerOk(cfg, q, t.lanes[q], t.joins, t.attempts)
    {
      PcGrows(cfg, s.lanes, t.lanes, s.joins, kept, s.attempts, t.lanes[q].pc);
    }
  }

  lemma DirectChange(cfg: Config, s: Node, t: Node, p: nat)
    requires !cfg.FanIn() && Inv(cfg, s) && p < |s.lanes| && p < |t.lanes|
    requires t == s.(lanes := s.lanes[p := t.lanes[p]])
    requires s.lanes[p].log <= t.lanes[p].log && s.lanes[p].stamps == t.lanes[p].stamps
    requires LaneOk(cfg, p, t.lanes[p], |s.attempts|, s.phase.Running?)
    requires DirectOk(cfg, p, t.lanes[p], s.attempts)
    requires forall i :: 0 <= i < t.lanes[p].marked ==> Forwarded(cfg, s.attempts, p, i)
    ensures Inv(cfg, t)
  {
    OneLaneGrows(cfg, s, p, t.lanes[p]);
    AttemptsGrow(cfg, s, t);
  }

  lemma DeliverKeeps(cfg: Config, s: Node, p: nat, m: Msg)
    requires Inv(cfg, s) && CanDeliver(cfg, s, p, m)
    ensures Inv(cfg, DoDeliver(s, p, m))
  {
    var t := DoDeliver(s, p, m);
    assert LaneOk(cfg, p, s.lanes[p], |s.attempts|, s.phase.Running?);
    if cfg.FanIn() {
      LaneChange(cfg, s, t, p);
    } else {
      DirectChange(cfg, s, t, p);
    }
  }

  lemma CommitKeeps(cfg: Config, s: Node, p: nat)
    requires Inv(cfg, s) && Live(s, Consumer(p))
    ensures Inv(cfg, DoCommit(s, p))
  {
    var t := DoCommit(s, p);
    if cfg.FanIn() {
      LaneChange(cfg, s, t, p);
    } else {
      DirectChange(cfg, s, t, p);
    }
  }

  lemma RewindKeeps(cfg: Config, s: Node, p: nat)
    requires Inv(cfg, s) && CanRewind(cfg, s, p)
    ensures Inv(cfg, DoRewind(s, p))
  {
    var t := DoRewind(s, p);
    if cfg.FanIn() {
      LaneChange(cfg, s, t, p);
    } else {
      DirectChange(cfg, s, t, p);
    }
  }

  lemma PassThroughKeeps(cfg: Config, s: Node, p: nat)
    requires Inv(cfg, s) && !cfg.FanIn() && CanTake(s, p)
    ensures Inv(cfg, DoPassThrough(s, p))
  {
    DirectChange(cfg, s, DoPassThrough(s, p), p);
  }

  lemma MarkPublishedKeeps(cfg: Config, s: Node, p: nat)
    requires Inv(cfg, s) && !cfg.FanIn() && CanMarkPublished(s, p)
    ensures Inv(cfg, DoMarkPublished(s, p))
  {
    var t := DoMarkPublished(s, p);
    assert LaneOk(cfg, p, s.lanes[p], |s.attempts|, s.phase.Running?);
    var a := s.lanes[p].pc.a;
    assert DirectOk(cfg, p, s.lanes[p], s.attempts);
    assert Forwarded(cfg, s.attempts, p, s.lanes[p].marked);
    DirectChange(cfg, s, t, p);
  }

  lemma RecordedIsSecured(cfg: Config, s: Node, p: nat)
    requires cfg.FanIn() && Inv(cfg, s) && p < |s.lanes| && s.lanes[p].pc.Recorded?
    ensures s.phase.Running?
    ensures forall i :: 0 <= i <= s.lanes[p].marked ==> Secured(cfg, Replay(s.changelog), s.attempts, s.lanes[p], i)
  {
    var lane, kept := s.lanes[p], Replay(s.changelog);
    assert LaneOk(cfg, p, lane, |s.attempts|, s.phase.Running?);
    assert ConsumerOk(cfg, p, lane, s.joins, s.attempts);
    forall i | 0 <= i <= lane.marked ensures Secured(cfg, kept, s.attempts, lane, i) {
      assert i < lane.marked || i == lane.marked;
    }
  }

  lemma MarkJoinedKeeps(cfg: Config, s: Node, p: nat, input: Data)
    requires Inv(cfg, s) && cfg.FanIn() && CanMarkJoined(cfg, s, p, input)
    ensures Inv(cfg, DoMarkJoined(cfg, s, p, input))
  {
    var t := DoMarkJoined(cfg, s, p, input);
    RecordedIsSecured(cfg, s, p);
    assert LaneOk(cfg, p, s.lanes[p], |s.attempts|, s.phase.Running?);
    assert ConsumerOk(cfg, p, s.lanes[p], s.joins, s.attempts);
    LaneChange(cfg, s, t, p);
  }

  // ---------- Steps that concern one correlation ID ----------

  /** Attempts are only added, or get closer to completion. */
  ghost predicate Extended(cfg: Config, a: seq<Attempt>, b: seq<Attempt>) {
    && |a| <= |b|
    && forall k :: 0 <= k < |a| ==>
         b[k] == a[k].(landed := b[k].landed) && (Complete(cfg, a[k]) ==> b[k] == a[k])
  }

  /** Apart from the recordings of c, both have the same logs and recordings. */
  ghost predicate SameApartFrom(a: seq<Lane>, b: seq<Lane>, c: Cid) {
    && |a| == |b|
    && forall p :: 0 <= p < |a| ==>
         && a[p].log == b[p].log
         && forall i :: 0 <= i < |a[p].log| && a[p].log[i].cid != c ==>
              (i in a[p].stamps <==> i in b[p].stamps) && (i in a[p].stamps ==> a[p].stamps[i] == b[p].stamps[i])
  }

  ghost predicate AgreeApartFrom(x: Joins, y: Joins, c: Cid) {
    forall d :: d != c ==> Lookup(x, d) == Lookup(y, d)
  }

  lemma RetiredFrame(cfg: Config, s: Node, t: Node, c: Cid, d: Cid, received: Received)
    requires Extended(cfg, s.attempts, t.attempts) && SameApartFrom(s.lanes, t.lanes, c) && c != d
    requires Retired(cfg, s.lanes, s.attempts, d, received)
    ensures Retired(cfg, t.lanes, t.attempts, d, received)
  {
    var a :| 0 <= a < |s.attempts| && RetiredBy(cfg, s.lanes, s.attempts[a], a, d, received);
    assert RetiredBy(cfg, t.lanes, t.attempts[a], a, d, received);
  }

  lemma PcFrame(cfg: Config, s: Node, t: Node, c: Cid, pc: Pc)
    requires Extended(cfg, s.attempts, t.attempts) && SameApartFrom(s.lanes, t.lanes, c)
    requires AgreeApartFrom(s.joins, t.joins, c) && AgreeApartFrom(Replay(s.changelog), Replay(t.changelog), c)
    requires PcOk(cfg, s.lanes, s.joins, Replay(s.changelog), s.attempts, pc) && Subject(s.attempts, pc) != Some(c)
    ensures PcOk(cfg, t.lanes, t.joins, Replay(t.changelog), t.attempts, pc)
    ensures Subject(t.attempts, pc) == Subject(s.attempts, pc)
  {
    match pc
    case Publishing(a) =>
      var d := s.attempts[a].cid;
      assert Covers(t.lanes[cfg.part(d)], d, a);
      assert Lookup(t.joins, d) == Lookup(s.joins, d);
    case Tombstoning(a) =>
      var d := s.attempts[a].cid;
      assert Covers(t.lanes[cfg.part(d)], d, a);
      assert Lookup(t.joins, d) == Lookup(s.joins, d);
      assert Lookup(Replay(t.changelog), d) == Lookup(Replay(s.changelog), d);
    case Ready(d, _, _) => assert Lookup(t.joins, d) == Lookup(s.joins, d);
    case Recorded(d) => assert Lookup(t.joins, d) == Lookup(s.joins, d);
    case _ =>
  }

  lemma ConsumerFrame(cfg: Config, s: Node, t: Node, c: Cid, p: nat)
    requires p < |s.lanes| && p < |t.lanes| && s.lanes[p] == t.lanes[p] && AgreeApartFrom(s.joins, t.joins, c)
    requires Subject(s.attempts, s.lanes[p].pc) != Some(c)
    requires Subject(t.attempts, s.lanes[p].pc) == Subject(s.attempts, s.lanes[p].pc)
    requires ConsumerOk(cfg, p, s.lanes[p], s.joins, s.attempts)
    ensures ConsumerOk(cfg, p, t.lanes[p], t.joins, t.attempts)
  {
    if s.lanes[p].pc.Recorded? {
      assert Lookup(t.joins, s.lanes[p].pc.cid) == Lookup(s.joins, s.lanes[p].pc.cid);
    }
  }

  lemma SecuredFrame(cfg: Config, s: Node, t: Node, c: Cid, p: nat, i: nat)
    requires Extended(cfg, s.attempts, t.attempts) && SameApartFrom(s.lanes, t.lanes, c)
    requires AgreeApartFrom(Replay(s.changelog), Replay(t.changelog), c)
    requires p < |s.lanes| && i < |s.lanes[p].log| && s.lanes[p].log[i].cid != c
    requires Secured(cfg, Replay(s.changelog), s.attempts, s.lanes[p], i)
    ensures Secured(cfg, Replay(t.changelog), t.attempts, t.lanes[p], i)
  {
    var m := s.lanes[p].log[i];
    assert Lookup(Replay(t.changelog), m.cid) == Lookup(Replay(s.changelog), m.cid);
    if PublishedSince(cfg, s.attempts, m.cid, m.source, s.lanes[p].stamps[i]) {
      PublishedFrame(cfg, s.attempts, t.attempts, m.cid, m.source, s.lanes[p].stamps[i]);
    }
  }

  lemma PublishedFrame(cfg: Config, a: seq<Attempt>, b: seq<Attempt>, c: Cid, u: Name, stamp: nat)
    requires Extended(cfg, a, b) && PublishedSince(cfg, a, c, u, stamp)
    ensures PublishedSince(cfg, b, c, u, stamp)
  {
    var k :| stamp <= k < |a| && a[k].cid == c && u in a[k].received && Complete(cfg, a[k]);
    assert b[k] == a[k];
  }

  /** Goroutine w, working on c, moves; nothing that belongs to another correlation ID changes. */
  ghost predicate Concerns(cfg: Config, s: Node, t: Node, w: Worker, c: Cid) {
    && Live(s, w) && Live(t, w) && (w.Consumer? ==> w.p == cfg.part(c) && t.phase == s.phase)
    && SameApartFrom(s.lanes, t.lanes, c) && Extended(cfg, s.attempts, t.attempts)
    && AgreeApartFrom(s.joins, t.joins, c) && AgreeApartFrom(Replay(s.changelog), Replay(t.changelog), c)
    && (forall q :: 0 <= q < |s.lanes| && w != Consumer(q) ==> s.lanes[q] == t.lanes[q])
    && (w.Consumer? ==> s.lanes[w.p].marked == t.lanes[w.p].marked)
  }

  lemma WorkersFrame(cfg: Config, s: Node, t: Node, w: Worker, c: Cid)
    requires Shape(cfg, s) && WorkersOk(cfg, s) && Concerns(cfg, s, t, w, c)
    requires PcOk(cfg, t.lanes, t.joins, Replay(t.changelog), t.attempts, PcOf(t, w))
    requires w.Recovery? ==> !PcOf(t, w).Recorded?
    requires w.Consumer? ==> ConsumerOk(cfg, w.p, t.lanes[w.p], t.joins, t.attempts)
    ensures WorkersOk(cfg, t)
  {
    forall q | 0 <= q < |t.lanes|
      ensures PcOk(cfg, t.lanes, t.joins, Replay(t.changelog), t.attempts, t.lanes[q].pc)
      ensures ConsumerOk(cfg, q, t.lanes[q], t.joins, t.attempts)
    {
      if w != Consumer(q) {
        assert ConsumerOk(cfg, q, s.lanes[q], s.joins, s.attempts);
        assert w.Recovery? ==> LaneOk(cfg, q, s.lanes[q], |s.attempts|, s.phase.Running?);
        assert Subject(s.attempts, s.lanes[q].pc) != Some(c);
        PcFrame(cfg, s, t, c, s.lanes[q].pc);
        ConsumerFrame(cfg, s, t, c, q);
      }
    }
  }

  lemma DurableFrame(cfg: Config, s: Node, t: Node, w: Worker, c: Cid)
    requires DurableOk(cfg, s) && Concerns(cfg, s, t, w, c)
    requires c in Replay(t.changelog) ==> Genuine(cfg, t.lanes, c, Replay(t.changelog)[c])
    ensures DurableOk(cfg, t)
  {
    var kept, kept' := Replay(s.changelog), Replay(t.changelog);
    forall d | d in kept' ensures Genuine(cfg, t.lanes, d, kept'[d]) {
      if d != c {
        assert Lookup(kept', d) == Lookup(kept, d);
        assert Genuine(cfg, s.lanes, d, kept[d]);
      }
    }
  }

  lemma MemoryFrame(cfg: Config, s: Node, t: Node, w: Worker, c: Cid)
    requires MemoryOk(cfg, s) && Concerns(cfg, s, t, w, c)
    requires c in t.joins ==> Lookup(Replay(t.changelog), c) == Some(t.joins[c])
    requires c in Replay(t.changelog) && c !in t.joins ==> Retired(cfg, t.lanes, t.attempts, c, Replay(t.changelog)[c])
    ensures MemoryOk(cfg, t)
  {
    var kept, kept' := Replay(s.changelog), Replay(t.changelog);
    forall d | d in t.joins ensures d in kept' && t.joins[d] == kept'[d] {
      assert d != c ==> Lookup(kept', d) == Lookup(kept, d) && Lookup(t.joins, d) == Lookup(s.joins, d);
    }
    forall d | d in kept' && d !in t.joins ensures Retired(cfg, t.lanes, t.attempts, d, kept'[d]) {
      if d != c {
        assert Lookup(kept', d) == Lookup(kept, d) && Lookup(t.joins, d) == Lookup(s.joins, d);
        RetiredFrame(cfg, s, t, c, d, kept[d]);
      }
    }
  }

  lemma BusyFrame(cfg: Config, s: Node, t: Node, w: Worker, c: Cid)
    requires BusyOk(cfg, s) && WorkersOk(cfg, s) && Concerns(cfg, s, t, w, c)
    requires Subject(s.attempts, PcOf(s, w)) == Some(c) || PcOf(s, w).Idle?
    requires c in t.joins ==> |t.joins[c]| < |cfg.deps| || Subject(t.attempts, PcOf(t, w)) == Some(c)
    ensures BusyOk(cfg, t)
  {
    forall d | t.phase.Running? && d in t.joins && |t.joins[d]| >= |cfg.deps|
      ensures Placed(cfg, t.lanes, d) && Subject(t.attempts, t.lanes[cfg.part(d)].pc) == Some(d)
    {
      if d != c {
        assert Lookup(t.joins, d) == Lookup(s.joins, d);
        assert Placed(cfg, s.lanes, d) && Subject(s.attempts, s.lanes[cfg.part(d)].pc) == Some(d);
        assert w != Consumer(cfg.part(d));
        PcFrame(cfg, s, t, c, s.lanes[cfg.part(d)].pc);
      }
    }
  }

  lemma LossFrame(cfg: Config, s: Node, t: Node, w: Worker, c: Cid)
    requires cfg.FanIn() && Shape(cfg, s) && NothingLost(cfg, s) && Concerns(cfg, s, t, w, c)
    requires forall i ::
               Placed(cfg, t.lanes, c) && 0 <= i < t.lanes[cfg.part(c)].marked &&
               i < |t.lanes[cfg.part(c)].log| && t.lanes[cfg.part(c)].log[i].cid == c ==>
                 Secured(cfg, Replay(t.changelog), t.attempts, t.lanes[cfg.part(c)], i)
    ensures NothingLost(cfg, t)
  {
    forall p, i | 0 <= p < |t.lanes| && 0 <= i < t.lanes[p].marked
      ensures Secured(cfg, Replay(t.changelog), t.attempts, t.lanes[p], i)
    {
      assert LaneOk(cfg, p, s.lanes[p], |s.attempts|, s.phase.Running?);
      assert Secured(cfg, Replay(s.changelog), s.attempts, s.lanes[p], i);
      assert Admissible(cfg, p, s.lanes[p].log[i]);
      if s.lanes[p].log[i].cid != c {
        SecuredFrame(cfg, s, t, c, p, i);
      }
    }
  }

  /** All that a step about c still has to show once the frame is known. */
  ghost predicate Discharged(cfg: Config, s: Node, t: Node, w: Worker, c: Cid) {
    Concerns(cfg, s, t, w, c) && Owned(cfg, s, t, w, c)
  }

  /** What must hold of c itself, and of the worker that moved. */
  ghost predicate Owned(cfg: Config, s: Node, t: Node, w: Worker, c: Cid)
    requires Live(s, w) && Live(t, w) && (w.Consumer? ==> w.p < |t.lanes|)
  {
    var kept := Replay(t.changelog);
    && (Subject(s.attempts, PcOf(s, w)) == Some(c) || PcOf(s, w).Idle?)
    && PcOk(cfg, t.lanes, t.joins, kept, t.attempts, PcOf(t, w))
    && (w.Recovery? ==> !PcOf(t, w).Recorded?)
    && (w.Consumer? ==> ConsumerOk(cfg, w.p, t.lanes[w.p], t.joins, t.attempts))
    && (c in kept ==> Genuine(cfg, t.lanes, c, kept[c]))
    && (c in t.joins ==> Lookup(kept, c) == Some(t.joins[c]))
    && (c in kept && c !in t.joins ==> Retired(cfg, t.lanes, t.attempts, c, kept[c]))
    && (c in t.joins ==> |t.joins[c]| < |cfg.deps| || Subject(t.attempts, PcOf(t, w)) == Some(c))
  }

  lemma SettledKeeps(cfg: Config, s: Node, t: Node, w: Worker, c: Cid)
    requires Shape(cfg, s) && FanInOk(cfg, s) && Discharged(cfg, s, t, w, c) && NothingLost(cfg, t)
    ensures FanInOk(cfg, t)
  {
    WorkersFrame(cfg, s, t, w, c);
    DurableFrame(cfg, s, t, w, c);
    MemoryFrame(cfg, s, t, w, c);
    BusyFrame(cfg, s, t, w, c);
  }

  /** Where a worker of a fan-in node stands while it works on c, and what it holds. */
  ghost predicate Standing(cfg: Config, s: Node, w: Worker, c: Cid) {
    var kept := Replay(s.changelog);
    && Live(s, w) && Subject(s.attempts, PcOf(s, w)) == Some(c)
    && PcOk(cfg, s.lanes, s.joins, kept, s.attempts, PcOf(s, w))
    && (w.Consumer? ==> ConsumerOk(cfg, w.p, s.lanes[w.p], s.joins, s.attempts) && w.p == cfg.part(c))
    && c in kept && Genuine(cfg, s.lanes, c, kept[c])
    && (c in s.joins ==> s.joins[c] == kept[c])
    && forall i :: i in s.lanes[cfg.part(c)].stamps ==> s.lanes[cfg.part(c)].stamps[i] <= |s.attempts|
  }

  lemma WorkerStands(cfg: Config, s: Node, w: Worker, c: Cid)
    requires cfg.FanIn() && Inv(cfg, s) && Live(s, w) && Subject(s.attempts, PcOf(s, w)) == Some(c)
    ensures Standing(cfg, s, w, c)
  {
    assert c in Replay(s.changelog) && Genuine(cfg, s.lanes, c, Replay(s.changelog)[c]);
    assert LaneOk(cfg, cfg.part(c), s.lanes[cfg.part(c)], |s.attempts|, s.phase.Running?);
  }

  // ---------- Completing a correlation ID ----------

  lemma AttemptsExtend(cfg: Config, s: Node, t: Node)
    requires AttemptsOk(cfg, s) && Extended(cfg, s.attempts, t.attempts) && |s.lanes| == |t.lanes|
    requires forall p :: 0 <= p < |s.lanes| ==> s.lanes[p].log == t.lanes[p].log
    requires forall a :: 0 <= a < |s.attempts| && t.attempts[a] != s.attempts[a] ==>
             AttemptOk(cfg, t.lanes, t.attempts[a])
    requires forall a :: |s.attempts| <= a < |t.attempts| ==> AttemptOk(cfg, t.lanes, t.attempts[a])
    ensures AttemptsOk(cfg, t)
  {
    forall a | 0 <= a < |t.attempts| ensures AttemptOk(cfg, t.lanes, t.attempts[a]) {
      if a < |s.attempts| && t.attempts[a] == s.attempts[a] {
        assert AttemptOk(cfg, s.lanes, s.attempts[a]);
      }
    }
  }

  lemma RunAgentBasics(cfg: Config, s: Node, w: Worker, out: Data)
    requires Shape(cfg, s) && AttemptsOk(cfg, s) && CanRunAgent(s, w, out)
    requires AttemptOk(cfg, s.lanes, DoRunAgent(s, w, out).attempts[|s.attempts|])
    ensures Shape(cfg, DoRunAgent(s, w, out)) && AttemptsOk(cfg, DoRunAgent(s, w, out))
  {
    var t, pc := DoRunAgent(s, w, out), PcOf(s, w);
    assert forall p :: 0 <= p < |s.lanes| ==> LaneOk(cfg, p, s.lanes[p], |s.attempts|, s.phase.Running?);
    assert AttemptOk(cfg, t.lanes, t.attempts[|s.attempts|]);
    AttemptsExtend(cfg, s, t);
  }

  lemma RunAgentConcerns(cfg: Config, s: Node, w: Worker, out: Data)
    requires cfg.FanIn() && CanRunAgent(s, w, out) && Standing(cfg, s, w, PcOf(s, w).cid)
    ensures Concerns(cfg, s, DoRunAgent(s, w, out), w, PcOf(s, w).cid)
    ensures SameCursors(s.lanes, DoRunAgent(s, w, out).lanes)
  {
  }

  lemma RunAgentSettles(cfg: Config, s: Node, w: Worker, out: Data)
    requires cfg.FanIn() && CanRunAgent(s, w, out) && Standing(cfg, s, w, PcOf(s, w).cid)
    ensures Discharged(cfg, s, DoRunAgent(s, w, out), w, PcOf(s, w).cid)
    ensures AttemptOk(cfg, s.lanes, DoRunAgent(s, w, out).attempts[|s.attempts|])
    ensures SameCursors(s.lanes, DoRunAgent(s, w, out).lanes)
    ensures Extended(cfg, s.attempts, DoRunAgent(s, w, out).attempts)
  {
    RunAgentConcerns(cfg, s, w, out);
  }

  ghost predicate SameCursors(a: seq<Lane>, b: seq<Lane>) {
    && |a| == |b|
    && forall p :: 0 <= p < |a| ==>
         && a[p].log == b[p].log && a[p].stamps == b[p].stamps
         && a[p].marked == b[p].marked && a[p].committed == b[p].committed
  }

  /** Only where a worker stands, memory and changelog changed. */
  ghost predicate Moved(s: Node, t: Node) {
    && s.attempts == t.attempts && SameCursors(s.lanes, t.lanes)
    && !t.phase.Down? && s.phase.Running? == t.phase.Running? && (!t.phase.Running? ==> s.lanes == t.lanes)
  }

  lemma BasicsFrame(cfg: Config, s: Node, t: Node)
    requires Shape(cfg, s) && AttemptsOk(cfg, s) && Moved(s, t) && Readable(t.changelog)
    ensures Shape(cfg, t) && AttemptsOk(cfg, t)
  {
    forall p | 0 <= p < |t.lanes| ensures LaneOk(cfg, p, t.lanes[p], |t.attempts|, t.phase.Running?) {
      assert LaneOk(cfg, p, s.lanes[p], |s.attempts|, s.phase.Running?);
    }
    AttemptsExtend(cfg, s, t);
  }

  /** Nothing is lost while the changelog stands still and attempts only advance. */
  lemma LossSame(cfg: Config, s: Node, t: Node)
    requires NothingLost(cfg, s) && Extended(cfg, s.attempts, t.attempts) && Replay(s.changelog) == Replay(t.changelog)
    requires SameCursors(s.lanes, t.lanes)
    ensures NothingLost(cfg, t)
  {
    var kept := Replay(s.changelog);
    forall p, i | 0 <= p < |t.lanes| && 0 <= i < t.lanes[p].marked
      ensures Secured(cfg, kept, t.attempts, t.lanes[p], i)
    {
      assert Secured(cfg, kept, s.attempts, s.lanes[p], i);
      var m := s.lanes[p].log[i];
      if PublishedSince(cfg, s.attempts, m.cid, m.source, s.lanes[p].stamps[i]) {
        PublishedFrame(cfg, s.attempts, t.attempts, m.cid, m.source, s.lanes[p].stamps[i]);
      }
    }
  }

  lemma SkipSame(cfg: Config, s: Node, t: Node)
    requires NothingSkipped(cfg, s) && Extended(cfg, s.attempts, t.attempts)
    requires SameCursors(s.lanes, t.lanes)
    ensures NothingSkipped(cfg, t)
  {
    forall p, i | 0 <= p < |t.lanes| && 0 <= i < t.lanes[p].marked ensures Forwarded(cfg, t.attempts, p, i) {
      assert Forwarded(cfg, s.attempts, p, i);
      var a :| 0 <= a < |s.attempts| && s.attempts[a].lane == p && s.attempts[a].offset == i
        && Complete(cfg, s.attempts[a]);
      assert t.attempts[a] == s.attempts[a];
    }
  }

  lemma RunAgentFanIn(cfg: Config, s: Node, w: Worker, out: Data)
    requires cfg.FanIn() && Inv(cfg, s) && CanRunAgent(s, w, out)
    ensures Inv(cfg, DoRunAgent(s, w, out))
  {
    var t := DoRunAgent(s, w, out);
    WorkerStands(cfg, s, w, PcOf(s, w).cid);
    RunAgentSettles(cfg, s, w, out);
    RunAgentBasics(cfg, s, w, out);
    LossSame(cfg, s, t);
    SettledKeeps(cfg, s, t, w, PcOf(s, w).cid);
  }

  lemma RunAgentKeeps(cfg: Config, s: Node, w: Worker, out: Data)
    requires Inv(cfg, s) && CanRunAgent(s, w, out)
    ensures Inv(cfg, DoRunAgent(s, w, out))
  {
    if cfg.FanIn() {
      RunAgentFanIn(cfg, s, w, out);
    } else {
      RunAgentBasics(cfg, s, w, out);
      SkipSame(cfg, s, DoRunAgent(s, w, out));
    }
  }

  lemma LandBasics(cfg: Config, s: Node, w: Worker)
    requires Shape(cfg, s) && AttemptsOk(cfg, s) && CanLand(cfg, s, w)
    ensures Shape(cfg, DoLand(s, w)) && AttemptsOk(cfg, DoLand(s, w))
  {
    var t, a := DoLand(s, w), PcOf(s, w).a;
    assert AttemptOk(cfg, s.lanes, s.attempts[a]);
    AttemptsExtend(cfg, s, t);
  }

  lemma LandSettles(cfg: Config, s: Node, w: Worker)
    requires cfg.FanIn() && CanLand(cfg, s, w) && Standing(cfg, s, w, s.attempts[PcOf(s, w).a].cid)
    ensures Discharged(cfg, s, DoLand(s, w), w, s.attempts[PcOf(s, w).a].cid)
  {
  }

  lemma LandKeeps(cfg: Config, s: Node, w: Worker)
    requires Inv(cfg, s) && CanLand(cfg, s, w)
    ensures Inv(cfg, DoLand(s, w))
  {
    LandBasics(cfg, s, w);
    if cfg.FanIn() {
      LandFanIn(cfg, s, w);
    } else {
      SkipSame(cfg, s, DoLand(s, w));
    }
  }

  lemma LandFanIn(cfg: Config, s: Node, w: Worker)
    requires cfg.FanIn() && Inv(cfg, s) && CanLand(cfg, s, w)
    ensures FanInOk(cfg, DoLand(s, w))
  {
    WorkerStands(cfg, s, w, s.attempts[PcOf(s, w).a].cid);
    LandSettles(cfg, s, w);
    LossSame(cfg, s, DoLand(s, w));
    SettledKeeps(cfg, s, DoLand(s, w), w, s.attempts[PcOf(s, w).a].cid);
  }

  lemma StrayRunKeeps(cfg: Config, s: Node, p: nat, i: nat, out: Data)
    requires Inv(cfg, s) && CanStrayRun(cfg, s, p, i, out)
    ensures Inv(cfg, DoStrayRun(s, p, i, out))
  {
    var t := DoStrayRun(s, p, i, out);
    StrayBasics(cfg, s, t);
    AttemptsExtend(cfg, s, t);
    SkipSame(cfg, s, t);
  }

  lemma StrayLandKeeps(cfg: Config, s: Node, a: nat)
    requires Inv(cfg, s) && CanStrayLand(cfg, s, a)
    ensures Inv(cfg, LandAttempt(s, a))
  {
    var t := LandAttempt(s, a);
    assert AttemptOk(cfg, s.lanes, s.attempts[a]);
    StrayBasics(cfg, s, t);
    AttemptsExtend(cfg, s, t);
    SkipSame(cfg, s, t);
  }

  /** Attempts move on behind the goroutines' backs. */
  lemma StrayBasics(cfg: Config, s: Node, t: Node)
    requires !cfg.FanIn() && Shape(cfg, s) && DirectsOk(cfg, s) && Extended(cfg, s.attempts, t.attempts)
    requires t == s.(attempts := t.attempts)
    ensures Shape(cfg, t) && DirectsOk(cfg, t)
  {
    forall p | 0 <= p < |t.lanes| ensures LaneOk(cfg, p, t.lanes[p], |t.attempts|, t.phase.Running?) {
      assert LaneOk(cfg, p, s.lanes[p], |s.attempts|, s.phase.Running?);
    }
    forall p | 0 <= p < |t.lanes| ensures DirectOk(cfg, p, t.lanes[p], t.attempts) {
      assert DirectOk(cfg, p, s.lanes[p], s.attempts);
    }
  }

  lemma FinishConcerns(cfg: Config, s: Node, w: Worker)
    requires cfg.FanIn() && CanFinish(cfg, s, w) && Standing(cfg, s, w, s.attempts[PcOf(s, w).a].cid)
    ensures Concerns(cfg, s, DoFinish(cfg, s, w), w, s.attempts[PcOf(s, w).a].cid) && Moved(s, DoFinish(cfg, s, w))
  {
  }

  lemma FinishSettles(cfg: Config, s: Node, w: Worker)
    requires cfg.FanIn() && CanFinish(cfg, s, w) && Standing(cfg, s, w, s.attempts[PcOf(s, w).a].cid)
    ensures Discharged(cfg, s, DoFinish(cfg, s, w), w, s.attempts[PcOf(s, w).a].cid)
    ensures Moved(s, DoFinish(cfg, s, w))
  {
    var t, a := DoFinish(cfg, s, w), PcOf(s, w).a;
    var c := s.attempts[a].cid;
    FinishConcerns(cfg, s, w);
    assert RetiredBy(cfg, t.lanes, t.attempts[a], a, c, Replay(s.changelog)[c]);
  }

  lemma FinishFanIn(cfg: Config, s: Node, w: Worker)
    requires cfg.FanIn() && Inv(cfg, s) && CanFinish(cfg, s, w)
    ensures Inv(cfg, DoFinish(cfg, s, w))
  {
    var t := DoFinish(cfg, s, w);
    WorkerStands(cfg, s, w, s.attempts[PcOf(s, w).a].cid);
    FinishSettles(cfg, s, w);
    BasicsFrame(cfg, s, t);
    LossSame(cfg, s, t);
    SettledKeeps(cfg, s, t, w, s.attempts[PcOf(s, w).a].cid);
  }

  lemma FinishKeeps(cfg: Config, s: Node, w: Worker)
    requires Inv(cfg, s) && CanFinish(cfg, s, w)
    ensures Inv(cfg, DoFinish(cfg, s, w))
  {
    if cfg.FanIn() {
      FinishFanIn(cfg, s, w);
    } else {
      AttemptsExtend(cfg, s, DoFinish(cfg, s, w));
      SkipSame(cfg, s, DoFinish(cfg, s, w));
    }
  }

  lemma BuryConcerns(cfg: Config, s: Node, w: Worker, landed: bool)
    requires cfg.FanIn() && CanBury(s, w) && Readable(s.changelog) && Standing(cfg, s, w, s.attempts[PcOf(s, w).a].cid)
    ensures Concerns(cfg, s, DoBury(s, w, landed), w, s.attempts[PcOf(s, w).a].cid)
    ensures Readable(DoBury(s, w, landed).changelog) && Moved(s, DoBury(s, w, landed))
  {
    BuriedRecord(s.changelog, s.attempts[PcOf(s, w).a].cid, landed, DoBury(s, w, landed).changelog);
  }

  lemma BurySettles(cfg: Config, s: Node, w: Worker, landed: bool)
    requires cfg.FanIn() && CanBury(s, w) && Readable(s.changelog) && Standing(cfg, s, w, s.attempts[PcOf(s, w).a].cid)
    ensures Discharged(cfg, s, DoBury(s, w, landed), w, s.attempts[PcOf(s, w).a].cid)
    ensures Readable(DoBury(s, w, landed).changelog) && Moved(s, DoBury(s, w, landed))
  {
    var t, a := DoBury(s, w, landed), PcOf(s, w).a;
    var c := s.attempts[a].cid;
    BuriedRecord(s.changelog, c, landed, t.changelog);
    BuryConcerns(cfg, s, w, landed);
    assert RetiredBy(cfg, t.lanes, t.attempts[a], a, c, Replay(s.changelog)[c]);
  }

  lemma BuriedRecord(log: seq<Record>, c: Cid, landed: bool, after: seq<Record>)
    requires Readable(log) && after == if landed then log + [Record(c, Tombstone)] else log
    ensures Readable(after) && Replay(after) == if landed then Replay(log) - {c} else Replay(log)
  {
    ReplayAppend(log, Record(c, Tombstone));
  }

  lemma BuryLosesNothing(cfg: Config, s: Node, w: Worker, landed: bool)
    requires cfg.FanIn() && Shape(cfg, s) && NothingLost(cfg, s) && CanBury(s, w)
    requires Standing(cfg, s, w, s.attempts[PcOf(s, w).a].cid)
    requires Concerns(cfg, s, DoBury(s, w, landed), w, s.attempts[PcOf(s, w).a].cid)
    ensures NothingLost(cfg, DoBury(s, w, landed))
  {
    var t, a, kept := DoBury(s, w, landed), PcOf(s, w).a, Replay(s.changelog);
    var c := s.attempts[a].cid;
    var lane := s.lanes[cfg.part(c)];
    forall i | 0 <= i < lane.marked && i < |lane.log| && lane.log[i].cid == c
      ensures Secured(cfg, Replay(t.changelog), t.attempts, t.lanes[cfg.part(c)], i)
    {
      assert Secured(cfg, kept, s.attempts, lane, i);
      if lane.log[i].source in kept[c] {
        assert lane.log[i].source in s.attempts[a].received && Complete(cfg, s.attempts[a]);
      }
    }
    LossFrame(cfg, s, t, w, c);
  }

  lemma OnlyFanInBuries(cfg: Config, s: Node, w: Worker)
    requires Inv(cfg, s) && CanBury(s, w)
    ensures cfg.FanIn()
  {
    assert !cfg.FanIn() && w.Consumer? ==> DirectOk(cfg, w.p, s.lanes[w.p], s.attempts);
  }

  lemma BuryKeeps(cfg: Config, s: Node, w: Worker, landed: bool)
    requires Inv(cfg, s) && CanBury(s, w)
    ensures Inv(cfg, DoBury(s, w, landed))
  {
    var t := DoBury(s, w, landed);
    OnlyFanInBuries(cfg, s, w);
    WorkerStands(cfg, s, w, s.attempts[PcOf(s, w).a].cid);
    BurySettles(cfg, s, w, landed);
    BasicsFrame(cfg, s, t);
    BuryLosesNothing(cfg, s, w, landed);
    SettledKeeps(cfg, s, t, w, s.attempts[PcOf(s, w).a].cid);
  }

  // ---------- Recording a contribution ----------

  /** What an idle consumer of a fan-in node may rely on about the next message's correlation ID. */
  ghost predicate Expects(cfg: Config, s: Node, p: nat, c: Cid) {
    var kept := Replay(s.changelog);
    && CanTake(s, p) && s.lanes[p].log[s.lanes[p].marked].cid == c
    && cfg.part(c) == p && s.lanes[p].log[s.lanes[p].marked].source in cfg.deps
    && (c in s.joins ==> c in kept && s.joins[c] == kept[c] && Genuine(cfg, s.lanes, c, s.joins[c]))
    && (c in kept && c !in s.joins ==> Retired(cfg, s.lanes, s.attempts, c, kept[c]))
  }

  lemma ConsumerExpects(cfg: Config, s: Node, p: nat)
    requires cfg.FanIn() && Inv(cfg, s) && CanTake(s, p)
    ensures Expects(cfg, s, p, s.lanes[p].log[s.lanes[p].marked].cid)
  {
    assert LaneOk(cfg, p, s.lanes[p], |s.attempts|, s.phase.Running?);
    assert Admissible(cfg, p, s.lanes[p].log[s.lanes[p].marked]);
  }

  lemma JoinConcerns(cfg: Config, s: Node, p: nat, c: Cid)
    requires cfg.FanIn() && Expects(cfg, s, p, c)
    ensures Concerns(cfg, s, DoJoin(s, p), Consumer(p), c)
    ensures Replay(DoJoin(s, p).changelog) == Replay(s.changelog)[c := DoJoin(s, p).joins[c]]
  {
    ReplayAppend(s.changelog, Record(c, State(DoJoin(s, p).joins[c])));
  }

  lemma JoinSettles(cfg: Config, s: Node, p: nat, c: Cid)
    requires cfg.FanIn() && Expects(cfg, s, p, c)
    ensures Discharged(cfg, s, DoJoin(s, p), Consumer(p), c)
    ensures Replay(DoJoin(s, p).changelog) == Replay(s.changelog)[c := DoJoin(s, p).joins[c]]
  {
    var t, m := DoJoin(s, p), s.lanes[p].log[s.lanes[p].marked];
    JoinConcerns(cfg, s, p, c);
    var before: Received := if c in s.joins then s.joins[c] else map[];
    forall u | u in t.joins[c] ensures u in cfg.deps && Msg(c, u, t.joins[c][u]) in t.lanes[p].log {
      assert u == m.source || u in before;
    }
    assert m.source in t.joins[c];
    assert Genuine(cfg, t.lanes, c, t.joins[c]);
  }

  lemma JoinBasics(cfg: Config, s: Node, p: nat)
    requires Shape(cfg, s) && AttemptsOk(cfg, s) && CanTake(s, p)
    ensures Shape(cfg, DoJoin(s, p)) && AttemptsOk(cfg, DoJoin(s, p))
  {
    var t := DoJoin(s, p);
    forall q | 0 <= q < |t.lanes| ensures LaneOk(cfg, q, t.lanes[q], |t.attempts|, t.phase.Running?) {
      assert LaneOk(cfg, q, s.lanes[q], |s.attempts|, s.phase.Running?);
    }
    AttemptsExtend(cfg, s, t);
  }

  lemma JoinLosesNothing(cfg: Config, s: Node, p: nat, c: Cid)
    requires cfg.FanIn() && Shape(cfg, s) && NothingLost(cfg, s) && Expects(cfg, s, p, c)
    requires Concerns(cfg, s, DoJoin(s, p), Consumer(p), c)
    requires Replay(DoJoin(s, p).changelog) == Replay(s.changelog)[c := DoJoin(s, p).joins[c]]
    ensures NothingLost(cfg, DoJoin(s, p))
  {
    var t, kept, lane := DoJoin(s, p), Replay(s.changelog), s.lanes[p];
    forall i | 0 <= i < lane.marked && i < |lane.log| && lane.log[i].cid == c
      ensures Secured(cfg, Replay(t.changelog), t.attempts, t.lanes[p], i)
    {
      assert Secured(cfg, kept, s.attempts, lane, i);
      var u := lane.log[i].source;
      if c in kept && u in kept[c] && c !in s.joins {
        var a :| 0 <= a < |s.attempts| && RetiredBy(cfg, s.lanes, s.attempts[a], a, c, kept[c]);
        assert u in t.attempts[a].received;
      }
    }
    LossFrame(cfg, s, t, Consumer(p), c);
  }

  lemma JoinKeeps(cfg: Config, s: Node, p: nat)
    requires cfg.FanIn() && Inv(cfg, s) && CanTake(s, p)
    ensures Inv(cfg, DoJoin(s, p))
  {
    var c := s.lanes[p].log[s.lanes[p].marked].cid;
    ConsumerExpects(cfg, s, p);
    JoinSettles(cfg, s, p, c);
    JoinBasics(cfg, s, p);
    JoinLosesNothing(cfg, s, p, c);
    SettledKeeps(cfg, s, DoJoin(s, p), Consumer(p), c);
  }

  // ---------- Every step ----------

  lemma InitOk(cfg: Config)
    ensures Inv(cfg, Init(cfg))
  {
  }

  /** The invariant holds initially and every enabled step keeps it. */
  lemma StepKeeps(cfg: Config, s: Node, step: Step)
    requires Inv(cfg, s) && Enabled(cfg, s, step)
    ensures Inv(cfg, Apply(cfg, s, step))
  {
    match step
    case Deliver(p, m) => DeliverKeeps(cfg, s, p, m);
    case Join(p) => JoinKeeps(cfg, s, p);
    case PassThrough(p) => PassThroughKeeps(cfg, s, p);
    case MarkJoined(p, input) => MarkJoinedKeeps(cfg, s, p, input);
    case RunAgent(w, out) => RunAgentKeeps(cfg, s, w, out);
    case Land(w) => LandKeeps(cfg, s, w);
    case Finish(w) => FinishKeeps(cfg, s, w);
    case Bury(w, landed) => BuryKeeps(cfg, s, w, landed);
    case MarkPublished(p) => MarkPublishedKeeps(cfg, s, p);
    case Commit(p) => CommitKeeps(cfg, s, p);
    case Rewind(p) => RewindKeeps(cfg, s, p);
    case StrayRun(p, i, out) => StrayRunKeeps(cfg, s, p, i, out);
    case StrayLand(a) => StrayLandKeeps(cfg, s, a);
    case Crash => CrashKeeps(cfg, s);
    case Restart => RestartKeeps(cfg, s);
    case Recover(c, input) => RecoverKeeps(cfg, s, c, input);
    case StartConsuming => StartKeeps(cfg, s);
    case Compact(i) => CompactKeeps(cfg, s, i);
  }
}
