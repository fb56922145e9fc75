/** The least closure of what entered for a correlation ID, built stage by stage, and how far along each node is. */
module Levels {
  import opened Types
  import opened Wiring
  import opened Swarm
  import opened SwarmTheorems

  /** The workers fed by the stage before. */
  ghost function Stage(plan: Plan, injected: seq<Injection>, c: Cid, k: nat): set<Name> {
    if k == 0 then {}
    else set v | v in Elements(Names(plan.nodes)) && Fed(plan, injected, Stage(plan, injected, c, k - 1), c, v)
  }

  lemma FedMonotone(plan: Plan, injected: seq<Injection>, a: set<Name>, b: set<Name>, c: Cid, v: Name)
    requires a <= b && Fed(plan, injected, a, c, v)
    ensures Fed(plan, injected, b, c, v)
  {
  }

  lemma {:induction false} StagesGrow(plan: Plan, injected: seq<Injection>, c: Cid, k: nat)
    ensures Stage(plan, injected, c, k) <= Stage(plan, injected, c, k + 1)
  {
    if k > 0 {
      StagesGrow(plan, injected, c, k - 1);
      forall v | v in Stage(plan, injected, c, k) ensures v in Stage(plan, injected, c, k + 1) {
        FedMonotone(plan, injected, Stage(plan, injected, c, k - 1), Stage(plan, injected, c, k), c, v);
      }
    }
  }

  /** A stage that adds nothing is the last. */
  lemma StageStays(plan: Plan, injected: seq<Injection>, c: Cid, k: nat)
    requires Stage(plan, injected, c, k) == Stage(plan, injected, c, k + 1)
    ensures Stage(plan, injected, c, k + 1) == Stage(plan, injected, c, k + 2)
  {
  }

  lemma StageGains(plan: Plan, injected: seq<Injection>, c: Cid, k: nat)
    requires Stage(plan, injected, c, k) != Stage(plan, injected, c, k + 1) && |Stage(plan, injected, c, k)| >= k
    ensures |Stage(plan, injected, c, k + 1)| >= k + 1
  {
    StagesGrow(plan, injected, c, k);
    SubsetCardinality(Stage(plan, injected, c, k), Stage(plan, injected, c, k + 1));
  }

  /** Stage k has k members, unless the stages have stopped growing by then. */
  ghost predicate GrownOrDone(plan: Plan, injected: seq<Injection>, c: Cid, k: nat) {
    |Stage(plan, injected, c, k)| >= k || Stage(plan, injected, c, k) == Stage(plan, injected, c, k + 1)
  }

  lemma NextGrownOrDone(plan: Plan, injected: seq<Injection>, c: Cid, k: nat)
    requires GrownOrDone(plan, injected, c, k)
    ensures GrownOrDone(plan, injected, c, k + 1)
  {
    if Stage(plan, injected, c, k) == Stage(plan, injected, c, k + 1) {
      StageStays(plan, injected, c, k);
    } else {
      StageGains(plan, injected, c, k);
    }
  }

  lemma {:induction false} StageOrSize(plan: Plan, injected: seq<Injection>, c: Cid, k: nat)
    ensures GrownOrDone(plan, injected, c, k)
  {
    if k > 0 {
      var j: nat := k - 1;
      StageOrSize(plan, injected, c, j);
      NextGrownOrDone(plan, injected, c, j);
      assert GrownOrDone(plan, injected, c, j + 1);
    }
  }

  lemma {:induction false} ElementsSize<T(!new)>(xs: seq<T>)
    ensures |Elements(xs)| <= |xs|
  {
    if xs == [] {
      assert Elements(xs) == {};
    } else {
      var init, last := xs[..|xs| - 1], xs[|xs| - 1];
      ElementsSize(init);
      assert Elements(xs) == Elements(init) + {last};
      assert |Elements(init) + {last}| <= |Elements(init)| + 1;
    }
  }

  /** All that c can reach. */
  ghost function Reach(plan: Plan, injected: seq<Injection>, c: Cid): set<Name> {
    Stage(plan, injected, c, |plan.nodes|)
  }

  lemma ReachIsFixed(plan: Plan, injected: seq<Injection>, c: Cid)
    ensures Reach(plan, injected, c) == Stage(plan, injected, c, |plan.nodes| + 1)
  {
    var n := |plan.nodes|;
    var names := Elements(Names(plan.nodes));
    StageOrSize(plan, injected, c, n);
    StagesGrow(plan, injected, c, n);
    ElementsSize(Names(plan.nodes));
    assert Stage(plan, injected, c, n + 1) <= names;
    SubsetCardinality(Stage(plan, injected, c, n + 1), names);
    SubsetCardinality(Stage(plan, injected, c, n), Stage(plan, injected, c, n + 1));
  }

  lemma {:induction false} StageIsWithin(plan: Plan, injected: seq<Injection>, other: set<Name>, c: Cid, k: nat)
    requires Closed(plan, injected, other, c)
    ensures Stage(plan, injected, c, k) <= other
  {
    if k > 0 {
      StageIsWithin(plan, injected, other, c, k - 1);
      forall v | v in Stage(plan, injected, c, k) ensures v in other {
        FedMonotone(plan, injected, Stage(plan, injected, c, k - 1), other, c, v);
      }
    }
  }

  /** The least closure always exists, and this is it. */
  lemma ReachIsLeast(plan: Plan, injected: seq<Injection>, c: Cid)
    ensures IsLeast(plan, injected, Reach(plan, injected, c), c)
  {
    ReachIsFixed(plan, injected, c);
    forall v | Fed(plan, injected, Reach(plan, injected, c), c, v) ensures v in Reach(plan, injected, c) {
      assert v in Stage(plan, injected, c, |plan.nodes| + 1);
    }
    forall other | Closed(plan, injected, other, c) ensures Reach(plan, injected, c) <= other {
      StageIsWithin(plan, injected, other, c, |plan.nodes|);
    }
  }

  // ---------- Levels ----------

  /** How many of the stages up to k do not have v yet. */
  ghost function Missing(plan: Plan, injected: seq<Injection>, c: Cid, v: Name, k: nat): nat {
    (if v in Stage(plan, injected, c, k) then 0 else 1) + if k == 0 then 0 else Missing(plan, injected, c, v, k - 1)
  }

  ghost function Level(plan: Plan, injected: seq<Injection>, c: Cid, v: Name): nat {
    Missing(plan, injected, c, v, |plan.nodes|)
  }

  lemma {:induction false} MissingBound(plan: Plan, injected: seq<Injection>, c: Cid, v: Name, k: nat)
    ensures Missing(plan, injected, c, v, k) <= k + 1
    ensures v in Stage(plan, injected, c, k) ==> Missing(plan, injected, c, v, k) <= k
  {
    if k > 0 {
      MissingBound(plan, injected, c, v, k - 1);
    }
  }

  /** Whoever waits for v comes at least one stage later. */
  lemma {:induction false} MissingLater(plan: Plan, injected: seq<Injection>, c: Cid, v: Name, w: Name, k: nat)
    requires v in Deps(plan, w) && IsWorker(plan, v) && !IsGate(plan, v)
    ensures Missing(plan, injected, c, w, k + 1) >= Missing(plan, injected, c, v, k) + 1
  {
    if k == 0 {
      assert w !in Stage(plan, injected, c, 0);
      assert w !in Stage(plan, injected, c, 1);
    } else {
      MissingLater(plan, injected, c, v, w, k - 1);
      assert w in Stage(plan, injected, c, k + 1) ==> v in Stage(plan, injected, c, k);
    }
  }

  /** Along every edge out of a node that c reaches, the level rises. */
  lemma LevelRises(plan: Plan, injected: seq<Injection>, c: Cid, v: Name, w: Name)
    requires v in Deps(plan, w) && IsWorker(plan, v) && !IsGate(plan, v) && v in Reach(plan, injected, c)
    ensures Level(plan, injected, c, w) > Level(plan, injected, c, v)
  {
    if |plan.nodes| > 0 {
      MissingLater(plan, injected, c, v, w, |plan.nodes| - 1);
    }
  }
}
