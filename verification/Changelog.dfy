/** The compacted changelog topic behind a fan-in node: replay, compaction and start-up hydration. */
module Changelog {
  import opened Types

  datatype Entry = Tombstone | State(received: Received) | Unreadable

  datatype Record = Record(key: Cid, entry: Entry)

  type Joins = map<Cid, Received>

  function ApplyRecord(joins: Joins, r: Record): Joins {
    match r.entry
    case Tombstone => joins - {r.key}
    case State(received) => joins[r.key := received]
    case Unreadable => joins
  }

  function ReplayFrom(joins: Joins, log: seq<Record>): Joins {
    if log == [] then joins
    else ApplyRecord(ReplayFrom(joins, log[..|log| - 1]), log[|log| - 1])
  }

  function Replay(log: seq<Record>): Joins {
    ReplayFrom(map[], log)
  }

  predicate Readable(log: seq<Record>) {
    forall i :: 0 <= i < |log| ==> !log[i].entry.Unreadable?
  }

  // ---------- Last write wins ----------

  /** Index i holds the last readable record of key k. */
  predicate Settles(log: seq<Record>, i: int, k: Cid) {
    && 0 <= i < |log| && log[i].key == k && !log[i].entry.Unreadable?
    && forall j :: i < j < |log| && log[j].key == k ==> log[j].entry.Unreadable?
  }

  function Meaning(e: Entry): Option<Received> {
    if e.State? then Some(e.received) else None
  }

  lemma {:induction false} ReplayLookup(joins: Joins, log: seq<Record>, k: Cid, i: int)
    ensures Settles(log, i, k) ==> Lookup(ReplayFrom(joins, log), k) == Meaning(log[i].entry)
    ensures (forall j :: 0 <= j < |log| && log[j].key == k ==> log[j].entry.Unreadable?) ==>
              Lookup(ReplayFrom(joins, log), k) == Lookup(joins, k)
  {
    if log != [] {
      var init := log[..|log| - 1];
      ReplayLookup(joins, init, k, i);
      assert forall j :: 0 <= j < |init| ==> init[j] == log[j];
    }
  }

  lemma {:induction false} SomeSettles(log: seq<Record>, j: int, k: Cid) returns (i: int)
    requires 0 <= j < |log| && log[j].key == k && !log[j].entry.Unreadable?
    ensures j <= i && Settles(log, i, k)
    decreases |log| - j
  {
    if t :| j < t < |log| && log[t].key == k && !log[t].entry.Unreadable? {
      i := SomeSettles(log, t, k);
    } else {
      i := j;
    }
  }

  /** Replay keeps, for every key, exactly what its last readable record says. */
  lemma ReplayIsLastWrite(log: seq<Record>, k: Cid, v: Received)
    ensures k in Replay(log) && Replay(log)[k] == v <==>
            exists i :: Settles(log, i, k) && log[i].entry == State(v)
  {
    if j :| 0 <= j < |log| && log[j].key == k && !log[j].entry.Unreadable? {
      var i := SomeSettles(log, j, k);
      ReplayLookup(map[], log, k, i);
      forall i' | Settles(log, i', k) ensures i' == i {}
    } else {
      ReplayLookup(map[], log, k, 0);
    }
  }

  lemma ReplayAppend(log: seq<Record>, r: Record)
    ensures Replay(log + [r]) == ApplyRecord(Replay(log), r)
  {
    assert (log + [r])[..|log|] == log;
  }

  // ---------- Compaction ----------

  function Drop(log: seq<Record>, i: nat): seq<Record>
    requires i < |log|
  {
    log[..i] + log[i + 1..]
  }

  /** What the broker's cleaner may remove: a superseded record, or a tombstone with nothing before it. */
  predicate Droppable(log: seq<Record>, i: nat) {
    && i < |log|
    && (|| (exists j :: i < j < |log| && log[j].key == log[i].key)
        || (log[i].entry.Tombstone? && forall j :: 0 <= j < i ==> log[j].key != log[i].key))
  }

  predicate ReadableAfter(log: seq<Record>, i: nat) {
    i < |log| && exists j :: i < j < |log| && log[j].key == log[i].key && !log[j].entry.Unreadable?
  }

  /** Record i changes nothing at the point where it is applied. */
  predicate Redundant(log: seq<Record>, i: nat) {
    i < |log| && ApplyRecord(Replay(log[..i]), log[i]) == Replay(log[..i])
  }

  lemma {:induction false} ReplayConcat(joins: Joins, a: seq<Record>, b: seq<Record>)
    ensures ReplayFrom(joins, a + b) == ReplayFrom(ReplayFrom(joins, a), b)
  {
    if b == [] {
      assert a + b == a;
    } else {
      ReplayConcat(joins, a, b[..|b| - 1]);
      assert (a + b)[..|a + b| - 1] == a + b[..|b| - 1];
    }
  }

  lemma ReplaySame(x: Joins, y: Joins, log: seq<Record>, k: Cid)
    requires (forall c :: c != k ==> Lookup(x, c) == Lookup(y, c))
    requires exists j :: 0 <= j < |log| && log[j].key == k && !log[j].entry.Unreadable?
    ensures ReplayFrom(x, log) == ReplayFrom(y, log)
  {
    var left, right := ReplayFrom(x, log), ReplayFrom(y, log);
    forall c ensures Lookup(left, c) == Lookup(right, c) {
      if j :| 0 <= j < |log| && log[j].key == c && !log[j].entry.Unreadable? {
        var i := SomeSettles(log, j, c);
        ReplayLookup(x, log, c, i);
        ReplayLookup(y, log, c, i);
      } else {
        ReplayLookup(x, log, c, 0);
        ReplayLookup(y, log, c, 0);
      }
    }
    SameMap(left, right);
  }

  lemma DropSplits(log: seq<Record>, i: nat)
    requires i < |log|
    ensures Replay(log) == ReplayFrom(ApplyRecord(Replay(log[..i]), log[i]), log[i + 1..])
    ensures Replay(Drop(log, i)) == ReplayFrom(Replay(log[..i]), log[i + 1..])
  {
    assert log == (log[..i] + [log[i]]) + log[i + 1..];
    ReplayConcat(map[], log[..i] + [log[i]], log[i + 1..]);
    ReplayAppend(log[..i], log[i]);
    ReplayConcat(map[], log[..i], log[i + 1..]);
  }

  lemma DropSuperseded(log: seq<Record>, i: nat)
    requires ReadableAfter(log, i)
    ensures Replay(Drop(log, i)) == Replay(log)
  {
    var base, r, b := Replay(log[..i]), log[i], log[i + 1..];
    var j :| i < j < |log| && log[j].key == r.key && !log[j].entry.Unreadable?;
    assert b[j - i - 1] == log[j];
    DropSplits(log, i);
    ReplaySame(ApplyRecord(base, r), base, b, r.key);
  }

  /** Exactly when removing one record, on any log at all, leaves what hydration rebuilds unchanged. */
  lemma DropPreservesReplay(log: seq<Record>, i: nat)
    requires i < |log|
    ensures Replay(Drop(log, i)) == Replay(log) <==> ReadableAfter(log, i) || Redundant(log, i)
  {
    DropSplits(log, i);
    if ReadableAfter(log, i) {
      DropSuperseded(log, i);
    } else if !Redundant(log, i) {
      var base, r, b := Replay(log[..i]), log[i], log[i + 1..];
      assert forall j :: 0 <= j < |b| ==> b[j] == log[j + i + 1];
      ReplayLookup(ApplyRecord(base, r), b, r.key, 0);
      ReplayLookup(base, b, r.key, 0);
      InvisibleChange(base, r);
    }
  }

  lemma InvisibleChange(joins: Joins, r: Record)
    ensures Lookup(ApplyRecord(joins, r), r.key) == Lookup(joins, r.key) ==> ApplyRecord(joins, r) == joins
  {
  }

  /** One cleaner step on a log of well-formed records. */
  lemma CompactionStep(log: seq<Record>, i: nat)
    requires Readable(log) && Droppable(log, i)
    ensures Readable(Drop(log, i)) && Replay(Drop(log, i)) == Replay(log)
  {
    if !ReadableAfter(log, i) {
      ReplayLookup(map[], log[..i], log[i].key, 0);
      assert Redundant(log, i);
    }
    DropPreservesReplay(log, i);
  }

  /** Any number of cleaner steps. */
  lemma {:induction false} CompactionRun(logs: seq<seq<Record>>, drops: seq<nat>)
    requires |logs| == |drops| + 1 && Readable(logs[0])
    requires forall i :: 0 <= i < |drops| ==> Droppable(logs[i], drops[i]) && logs[i + 1] == Drop(logs[i], drops[i])
    ensures Replay(logs[|drops|]) == Replay(logs[0])
  {
    var n := |drops|;
    if n > 0 {
      CompactionStep(logs[0], drops[0]);
      CompactionRun(logs[1..], drops[1..]);
    }
  }

  /** Well-formedness matters: a superseding record nobody can read makes compaction lose a join. */
  lemma CompactionLosesUnderUnreadable(c: Cid, v: Received)
    ensures var log := [Record(c, State(v)), Record(c, Unreadable)];
            Droppable(log, 0) && c in Replay(log) && c !in Replay(Drop(log, 0))
  {
    var log := [Record(c, State(v)), Record(c, Unreadable)];
    assert log[1].key == log[0].key;
    ReplayLookup(map[], log, c, 0);
    ReplayLookup(map[], Drop(log, 0), c, 0);
  }

  // ---------- Hydration ----------

  /** A retained record; compaction leaves gaps between offsets. */
  datatype Stored = Stored(offset: nat, record: Record)

  predicate Increasing(stream: seq<Stored>) {
    forall i, j :: 0 <= i < j < |stream| ==> stream[i].offset < stream[j].offset
  }

  predicate Retained(stream: seq<Stored>, newest: nat) {
    newest == 0 || exists i :: 0 <= i < |stream| && stream[i].offset + 1 == newest
  }

  function Records(stream: seq<Stored>): seq<Record> {
    seq(|stream|, i requires 0 <= i < |stream| => stream[i].record)
  }

  /** The first `consumed` records are those below the offset `newest`. */
  predicate Below(stream: seq<Stored>, newest: nat, consumed: nat) {
    forall i :: 0 <= i < |stream| ==> (i < consumed <==> stream[i].offset < newest)
  }

  datatype Outcome = Finished | Waiting

  datatype Partition = Partition(stream: seq<Stored>, newest: nat)

  predicate Settled(q: Partition) {
    && Increasing(q.stream) && Retained(q.stream, q.newest)
    && forall i :: 0 <= i < |q.stream| ==> q.stream[i].offset < q.newest
  }

  /** Where the loop stops: at the first record that reaches `newest`, or past the last one if none does. */
  predicate StopsAt(stream: seq<Stored>, newest: nat, consumed: nat, outcome: Outcome) {
    && consumed <= |stream|
    && match outcome
       case Waiting =>
         newest != 0 && consumed == |stream| && forall i :: 0 <= i < |stream| ==> stream[i].offset + 1 < newest
       case Finished =>
         if newest == 0 then consumed == 0
         else
           && consumed > 0 && stream[consumed - 1].offset + 1 >= newest
           && forall i :: 0 <= i < consumed - 1 ==> stream[i].offset + 1 < newest
  }

  lemma StopIsExact(stream: seq<Stored>, newest: nat, consumed: nat, outcome: Outcome)
    requires StopsAt(stream, newest, consumed, outcome) && Increasing(stream)
    ensures Retained(stream, newest) <==> outcome == Finished && Below(stream, newest, consumed)
  {
    if outcome == Finished && newest != 0 {
      assert forall i :: consumed <= i < |stream| ==> stream[consumed - 1].offset < stream[i].offset;
      if i :| 0 <= i < |stream| && stream[i].offset + 1 == newest {
        assert i == consumed - 1;
      }
    }
  }

  lemma StopOfSettled(stream: seq<Stored>, newest: nat, consumed: nat, outcome: Outcome)
    requires StopsAt(stream, newest, consumed, outcome) && Settled(Partition(stream, newest))
    ensures outcome == Finished && consumed == |stream|
  {
    StopIsExact(stream, newest, consumed, outcome);
    if stream != [] {
      assert stream[|stream| - 1].offset < newest;
    }
  }

  /** Replays one partition. `Waiting` is the source blocked on a message that never comes. */
  method HydratePartition(stream: seq<Stored>, newest: nat, joins: Joins)
    returns (out: Joins, outcome: Outcome, consumed: nat)
    ensures StopsAt(stream, newest, consumed, outcome) && out == ReplayFrom(joins, Records(stream[..consumed]))
    ensures Increasing(stream) ==>
              (Retained(stream, newest) <==> outcome == Finished && Below(stream, newest, consumed))
    ensures Settled(Partition(stream, newest)) ==> outcome == Finished && consumed == |stream|
  {
    out, outcome, consumed := HydrateLoop(stream, newest, joins);
    if Increasing(stream) {
      StopIsExact(stream, newest, consumed, outcome);
    }
    if Settled(Partition(stream, newest)) {
      StopOfSettled(stream, newest, consumed, outcome);
    }
  }

  method HydrateLoop(stream: seq<Stored>, newest: nat, joins: Joins)
    returns (out: Joins, outcome: Outcome, consumed: nat)
    ensures StopsAt(stream, newest, consumed, outcome) && out == ReplayFrom(joins, Records(stream[..consumed]))
  {
    out, consumed := joins, 0;
    if newest == 0 {
      return out, Finished, 0;
    }
    while consumed < |stream|
      invariant consumed <= |stream| && out == ReplayFrom(joins, Records(stream[..consumed]))
      invariant forall i :: 0 <= i < consumed ==> stream[i].offset + 1 < newest
    {
      var msg := stream[consumed];
      assert Records(stream[..consumed + 1])[..consumed] == Records(stream[..consumed]);
      match msg.record.entry {
        case Tombstone => out := out - {msg.record.key};
        case State(received) => out := out[msg.record.key := received];
        case Unreadable =>
      }
      consumed := consumed + 1;
      if msg.offset + 1 >= newest {
        return out, Finished, consumed;
      }
    }
    outcome := Waiting;
  }

  /** Hydration would wait here for a record that is no longer there. */
  predicate Blocks(q: Partition) {
    q.newest != 0 && forall i :: 0 <= i < |q.stream| ==> q.stream[i].offset + 1 < q.newest
  }

  function HydrateIn(parts: seq<Partition>, order: seq<nat>): Joins
    requires forall i :: 0 <= i < |order| ==> order[i] < |parts|
  {
    if order == [] then map[]
    else ReplayFrom(HydrateIn(parts, order[..|order| - 1]), Records(parts[order[|order| - 1]].stream))
  }

  /** Partition p holds, in order, exactly the records of `log` whose key hashes to p. */
  ghost function Project(log: seq<Record>, part: Cid -> nat, p: nat): seq<Record> {
    if log == [] then []
    else Project(log[..|log| - 1], part, p) +
         (if part(log[|log| - 1].key) == p then [log[|log| - 1]] else [])
  }

  lemma ReplayFromAppend(joins: Joins, log: seq<Record>, r: Record)
    ensures ReplayFrom(joins, log + [r]) == ApplyRecord(ReplayFrom(joins, log), r)
  {
    assert (log + [r])[..|log|] == log;
  }

  /** What a record makes of one key's value. */
  function After(r: Record, k: Cid, value: Option<Received>): Option<Received> {
    if r.key != k || r.entry.Unreadable? then value else Meaning(r.entry)
  }

  lemma ApplyLookup(joins: Joins, r: Record, k: Cid)
    ensures Lookup(ApplyRecord(joins, r), k) == After(r, k, Lookup(joins, k))
  {
  }

  lemma ReplayStep(joins: Joins, log: seq<Record>, r: Record, k: Cid)
    ensures Lookup(ReplayFrom(joins, log + [r]), k) == After(r, k, Lookup(ReplayFrom(joins, log), k))
  {
    ReplayFromAppend(joins, log, r);
    ApplyLookup(ReplayFrom(joins, log), r, k);
  }

  lemma {:induction false} ProjectLookup(joins: Joins, log: seq<Record>, part: Cid -> nat, p: nat, k: Cid)
    ensures Lookup(ReplayFrom(joins, Project(log, part, p)), k) ==
            if part(k) == p then Lookup(ReplayFrom(joins, log), k) else Lookup(joins, k)
  {
    if log != [] {
      var init, r := log[..|log| - 1], log[|log| - 1];
      var kept := Project(init, part, p);
      ProjectLookup(joins, init, part, p, k);
      assert log == init + [r];
      ReplayStep(joins, init, r, k);
      ReplayStep(joins, kept, r, k);
      assert kept + [] == kept;
    }
  }

  ghost predicate PartitionsOf(parts: seq<Partition>, log: seq<Record>, part: Cid -> nat) {
    forall p :: 0 <= p < |parts| ==> Records(parts[p].stream) == Project(log, part, p)
  }

  /** Every record is in the partition its key hashes to. */
  ghost predicate Keyed(parts: seq<Partition>, part: Cid -> nat) {
    forall p, i :: 0 <= p < |parts| && 0 <= i < |parts[p].stream| ==> part(parts[p].stream[i].record.key) == p
  }

  lemma {:induction false} ProjectIsKeyed(log: seq<Record>, part: Cid -> nat, p: nat, i: nat)
    requires i < |Project(log, part, p)|
    ensures part(Project(log, part, p)[i].key) == p
  {
    var init := log[..|log| - 1];
    if i < |Project(init, part, p)| {
      ProjectIsKeyed(init, part, p, i);
    }
  }

  lemma ReplayFromSame(x: Joins, y: Joins, log: seq<Record>, k: Cid)
    requires Lookup(x, k) == Lookup(y, k)
    ensures Lookup(ReplayFrom(x, log), k) == Lookup(ReplayFrom(y, log), k)
  {
    if j :| 0 <= j < |log| && log[j].key == k && !log[j].entry.Unreadable? {
      var i := SomeSettles(log, j, k);
      ReplayLookup(x, log, k, i);
      ReplayLookup(y, log, k, i);
    } else {
      ReplayLookup(x, log, k, 0);
      ReplayLookup(y, log, k, 0);
    }
  }

  /** A key's value comes from its own partition, wherever that stands in the order. */
  lemma {:induction false} HydrateInLookup(parts: seq<Partition>, order: seq<nat>, part: Cid -> nat, k: Cid)
    requires forall i :: 0 <= i < |order| ==> order[i] < |parts|
    requires Distinct(order) && Keyed(parts, part)
    ensures Lookup(HydrateIn(parts, order), k) ==
            if part(k) in order && part(k) < |parts| then Lookup(Replay(Records(parts[part(k)].stream)), k) else None
  {
    if order != [] {
      var init, p := order[..|order| - 1], order[|order| - 1];
      HydrateInLookup(parts, init, part, k);
      assert order == init + [p];
      if part(k) == p {
        assert p !in init;
        ReplayFromSame(HydrateIn(parts, init), map[], Records(parts[p].stream), k);
      } else {
        ReplayLookup(HydrateIn(parts, init), Records(parts[p].stream), k, 0);
      }
    }
  }

  /** The partitions, read in this order, hold this log, and each still has its newest record. */
  ghost predicate Serves(parts: seq<Partition>, order: seq<nat>, log: seq<Record>, part: Cid -> nat) {
    && (forall p :: 0 <= p < |parts| ==> Settled(parts[p])) && PartitionsOf(parts, log, part)
    && (forall i :: 0 <= i < |order| ==> order[i] < |parts|) && Distinct(order) && forall k :: part(k) in order
  }

  /** Whatever order the partitions come in, hydration rebuilds the replay of the whole keyed log. */
  lemma HydrationIsOrderIndependent(parts: seq<Partition>, order: seq<nat>, log: seq<Record>, part: Cid -> nat)
    requires Serves(parts, order, log, part)
    ensures HydrateIn(parts, order) == Replay(log)
  {
    forall p, i | 0 <= p < |parts| && 0 <= i < |parts[p].stream|
      ensures part(parts[p].stream[i].record.key) == p
    {
      ProjectIsKeyed(log, part, p, i);
      assert Records(parts[p].stream)[i] == Project(log, part, p)[i];
    }
    forall k ensures Lookup(HydrateIn(parts, order), k) == Lookup(Replay(log), k) {
      HydrateInLookup(parts, order, part, k);
      ProjectLookup(map[], log, part, part(k), k);
    }
    SameMap(HydrateIn(parts, order), Replay(log));
  }

  /** Hydration over the partitions the client lists, in the order it lists them. */
  method HydrateJoinState(parts: seq<Partition>, order: seq<nat>) returns (joins: Option<Joins>)
    requires forall i :: 0 <= i < |order| ==> order[i] < |parts|
    ensures joins.None? <==> exists i :: 0 <= i < |order| && Blocks(parts[order[i]])
    ensures (forall i :: 0 <= i < |parts| ==> Settled(parts[i])) ==> joins == Some(HydrateIn(parts, order))
    ensures forall log, part :: Serves(parts, order, log, part) ==> joins == Some(Replay(log))
  {
    var acc: Joins := map[];
    for i := 0 to |order|
      invariant forall k :: 0 <= k < i ==> !Blocks(parts[order[k]])
      invariant (forall i :: 0 <= i < |parts| ==> Settled(parts[i])) ==> acc == HydrateIn(parts, order[..i])
    {
      var q := parts[order[i]];
      var out, outcome, consumed := HydratePartition(q.stream, q.newest, acc);
      if outcome == Waiting {
        return None;
      }
      assert q.stream[..|q.stream|] == q.stream;
      assert order[..i + 1][..i] == order[..i];
      acc := out;
    }
    assert order[..|order|] == order;
    forall log, part | Serves(parts, order, log, part) ensures acc == Replay(log) {
      HydrationIsOrderIndependent(parts, order, log, part);
    }
    return Some(acc);
  }

  // ---------- Compaction of one partition ----------

  function Cleaned(q: Partition, i: nat): Partition
    requires i < |q.stream|
  {
    q.(stream := q.stream[..i] + q.stream[i + 1..])
  }

  lemma CleanedRecords(q: Partition, i: nat)
    requires i < |q.stream|
    ensures Records(Cleaned(q, i).stream) == Drop(Records(q.stream), i)
  {
  }

  /** Cleaning keeps the newest record, and with it the end of hydration, unless it removes just that one. */
  lemma CleanedSettles(q: Partition, i: nat)
    requires Settled(q) && i < |q.stream|
    ensures Settled(Cleaned(q, i)) <==> i + 1 < |q.stream|
    ensures i + 1 == |q.stream| ==> Blocks(Cleaned(q, i))
  {
    var last, rest := |q.stream| - 1, Cleaned(q, i).stream;
    var top :| 0 <= top < |q.stream| && q.stream[top].offset + 1 == q.newest;
    assert forall k :: 0 <= k < last ==> q.stream[k].offset < q.stream[last].offset;
    assert top == last;
    if i < last {
      assert rest[last - 1] == q.stream[last];
    }
  }

  /**
   One cleaner step on one partition of well-formed records: hydration, in any order of the partitions, rebuilds
   the same joins, and still comes to an end exactly if the step did not remove the newest record.
   */
  lemma PartitionCompaction(parts: seq<Partition>, order: seq<nat>, part: Cid -> nat, p: nat, i: nat)
    requires Keyed(parts, part) && Distinct(order) && forall j :: 0 <= j < |order| ==> order[j] < |parts|
    requires p < |parts| && Settled(parts[p]) && i < |parts[p].stream|
    requires Readable(Records(parts[p].stream)) && Droppable(Records(parts[p].stream), i)
    ensures var after := parts[p := Cleaned(parts[p], i)];
            && HydrateIn(after, order) == HydrateIn(parts, order)
            && (Settled(after[p]) <==> i + 1 < |parts[p].stream|) && (!Settled(after[p]) ==> Blocks(after[p]))
  {
    var after := parts[p := Cleaned(parts[p], i)];
    CleanedRecords(parts[p], i);
    CompactionStep(Records(parts[p].stream), i);
    CleanedSettles(parts[p], i);
    assert Keyed(after, part);
    forall k ensures Lookup(HydrateIn(after, order), k) == Lookup(HydrateIn(parts, order), k) {
      HydrateInLookup(parts, order, part, k);
      HydrateInLookup(after, order, part, k);
    }
    SameMap(HydrateIn(after, order), HydrateIn(parts, order));
  }
}
