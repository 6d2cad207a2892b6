/**
 * The round-robin scheduler (`struct cps_rr`) that tests/test-cps.c drives
 * with `cps_rr_add`, `cps_rr_run_one_lap` and `cps_rr_drain`.
 *
 * The scheduler holds a FIFO queue of live continuations. One lap takes the
 * queue as it stands, invokes each entry exactly once, and queues the target
 * of every tail-chain for the following lap; an entry that returns leaves the
 * queue. Draining runs laps until the queue is empty.
 */
module RoundRobin {
  import opened Cps

  /** No continuation is queued twice. */
  ghost predicate Distinct(q: seq<Cont>) {
    forall i, j :: 0 <= i < j < |q| ==> q[i] != q[j]
  }

  /** No two entries belong to the same record. */
  ghost predicate DistinctHeads(q: seq<Cont>) {
    forall i, j :: 0 <= i < j < |q| ==> Head(q[i]) != Head(q[j])
  }

  /** No two different steps write the same cell. */
  ghost predicate SoleWriters(t: seq<Cont>) {
    forall a, b :: a in t && b in t && Dest(a) == Dest(b) ==> a == b
  }

  /** The queue of the next lap: the tail-chain targets of this lap's
      entries, in the order of the entries. */
  function Successors(q: seq<Cont>): seq<Cont> {
    if q == [] then [] else Successors(q[..|q| - 1]) + After(q[|q| - 1])
  }

  /** Every step of the chains that start at the entries of `q`, chain by
      chain. */
  ghost function Chains(q: seq<Cont>): seq<Cont> {
    if q == [] then [] else Chains(q[..|q| - 1]) + Chain(q[|q| - 1])
  }

  /** The cells and records the chains of `q` change. */
  ghost function Footprints(q: seq<Cont>): set<object> {
    if q == [] then {} else Footprints(q[..|q| - 1]) + Footprint(q[|q| - 1])
  }

  /** The steps `drain` performs, lap after lap. */
  ghost function DrainTrace(q: seq<Cont>): seq<Cont>
    decreases |Chains(q)|
  {
    if q == [] then []
    else
      LapSplit(q);
      q + DrainTrace(Successors(q))
  }

  /** `struct cps_rr`: the scheduler and its queue. */
  class Scheduler {
    var queue: seq<Cont>

    ghost predicate Valid()
      reads this
    {
      Distinct(queue)
    }

    /** `cps_rr_new` */
    constructor ()
      ensures Valid() && queue == []
    {
      queue := [];
    }

    /** `cps_rr_add`: append a continuation that is not already queued. */
    method Add(c: Cont)
      requires Valid() && c !in queue
      modifies this
      ensures Valid()
      ensures queue == old(queue) + [c]
    {
      queue := queue + [c];
    }

    /** `cps_rr_run_one_lap`: invoke every entry present at the start of the
        lap exactly once, in queue order; the next queue holds the targets
        the entries tail-chained into, and nothing queued during the lap runs
        in it. */
    method RunOneLap() returns (rc: int)
      requires Valid()
      modifies this, Objects(queue)
      ensures Valid()
      ensures rc == 0
      ensures queue == Successors(old(queue))
      ensures Holds(old(queue), old(queue), old(Capture(queue)))
    {
      var lap := queue;
      ghost var st := Capture(lap);
      ghost var done: seq<Cont> := [];
      HoldsStart(lap);
      var next: seq<Cont> := [];
      var i := 0;
      while i < |lap|
        invariant 0 <= i <= |lap|
        invariant done == lap[..i]
        invariant next == Successors(done)
        invariant Holds(lap, done, st)
      {
        LapAdvance(lap, i);
        SnapshotAdvanced(lap, done, st);
        ghost var mid := Capture(lap);
        var sig := Step(lap[i], lap);
        Compose(lap, done, [lap[i]], st, mid);
        if sig.TailChain? {
          next := next + [sig.target];
        }
        done := done + [lap[i]];
        i := i + 1;
      }
      LapEnd(lap, done);
      NotStepObject(this, lap);
      queue := next;
      rc := 0;
    }

    /** `cps_rr_drain`: run laps until the queue is empty. */
    method Drain() returns (rc: int)
      requires Valid()
      modifies this, Footprints(queue)
      ensures Valid()
      ensures rc == 0
      ensures queue == []
      ensures Holds(DrainTrace(old(queue)), DrainTrace(old(queue)), old(Capture(DrainTrace(queue))))
    {
      ghost var full := DrainTrace(queue);
      DrainObjects(queue);
      FootprintsChains(queue);
      ghost var st := Capture(full);
      ghost var done: seq<Cont> := [];
      HoldsStart(full);
      while queue != []
        invariant Valid()
        invariant done + DrainTrace(queue) == full
        invariant Holds(full, done, st)
        decreases |Chains(queue)|
      {
        ghost var lap := queue;
        rc := LapOfDrain(full, done, st);
        LapSplit(lap);
        done := done + lap;
      }
      assert done == full;
      rc := 0;
    }

    /** One lap of `cps_rr_drain`, seen from all the steps of the drain:
        the lap's entries are performed and nothing else of the drain's
        cells and counters changes. */
    method LapOfDrain(ghost full: seq<Cont>, ghost done: seq<Cont>, ghost st: Store) returns (rc: int)
      requires Valid() && queue != []
      requires done + DrainTrace(queue) == full
      requires Covers(st, full) && Holds(full, done, st)
      modifies this, Objects(full)
      ensures Valid()
      ensures rc == 0
      ensures queue == Successors(old(queue))
      ensures (done + old(queue)) + DrainTrace(queue) == full
      ensures Holds(full, done + old(queue), st)
    {
      ghost var lap := queue;
      DrainUnfold(lap, done, full);
      SnapshotAdvanced(full, done, st);
      ghost var outer, inner := Capture(full), Capture(lap);
      CaptureAgree(full, lap);
      CaptureNow(full);
      NotStepObject(this, full);
      rc := RunOneLap();
      forall d | d in full
        ensures Dest(d) in Objects(lap) || Dest(d).contents == outer[d].cell
        ensures Rec(d) in Objects(lap) || RunCount(d) == outer[d].count
      {
        if Dest(d) !in Objects(lap) {
          assert Dest(d).contents == old(Dest(d).contents);
        }
        if Rec(d) !in Objects(lap) {
          assert Rec(d) in Objects(full);
          match d
          case SaveIntResume(r) =>
            assert r.runCount == old(r.runCount);
          case SaveInt2Step1(r) =>
            assert r.runCount == old(r.runCount);
          case SaveInt2Step2(r) =>
            assert r.runCount == old(r.runCount);
        }
      }
      Widen(full, lap, outer, inner);
      Compose(full, done, lap, st, outer);
    }
  }

  // ---------------------------------------------------------------------
  // Lemmas about laps and draining.

  /** One more entry of the lap has run. */
  lemma LapAdvance(lap: seq<Cont>, i: nat)
    requires i < |lap|
    ensures lap[i] in lap
    ensures lap[..i + 1] == lap[..i] + [lap[i]]
    ensures Successors(lap[..i] + [lap[i]]) == Successors(lap[..i]) + After(lap[i])
  {
    assert (lap[..i] + [lap[i]])[..i] == lap[..i];
  }

  /** The whole lap has run. */
  lemma LapEnd(lap: seq<Cont>, done: seq<Cont>)
    requires Distinct(lap) && done == lap[..|lap|]
    ensures done == lap && Distinct(Successors(lap))
  {
    assert lap[..|lap|] == lap;
    SuccessorsDistinct(lap);
  }

  /** The scheduler is none of the cells and records its steps change. */
  lemma NotStepObject(s: Scheduler, t: seq<Cont>)
    ensures s !in Objects(t)
  {
    forall c | c in t ensures Rec(c) != s && Dest(c) as object != s {
      match c
      case SaveIntResume(r) =>
      case SaveInt2Step1(r) =>
      case SaveInt2Step2(r) =>
    }
  }

  lemma {:induction false} ChainsAppend(a: seq<Cont>, b: seq<Cont>)
    ensures Chains(a + b) == Chains(a) + Chains(b)
  {
    if b == [] {
      assert a + b == a;
    } else {
      var b' := b[..|b| - 1];
      assert (a + b)[..|a + b| - 1] == a + b';
      assert (a + b)[|a + b| - 1] == b[|b| - 1];
      ChainsAppend(a, b');
    }
  }

  lemma {:induction false} SuccessorsAppend(a: seq<Cont>, b: seq<Cont>)
    ensures Successors(a + b) == Successors(a) + Successors(b)
  {
    if b == [] {
      assert a + b == a;
    } else {
      var b' := b[..|b| - 1];
      assert (a + b)[..|a + b| - 1] == a + b';
      assert (a + b)[|a + b| - 1] == b[|b| - 1];
      SuccessorsAppend(a, b');
    }
  }

  /** One lap advances every chain by exactly one step: the chains of the
      next queue are those of this queue without their first steps. */
  lemma {:induction false} LapSplit(q: seq<Cont>)
    ensures multiset(Chains(q)) == multiset(q) + multiset(Chains(Successors(q)))
    ensures |Chains(q)| == |q| + |Chains(Successors(q))|
  {
    if q != [] {
      var p, e := q[..|q| - 1], q[|q| - 1];
      assert q == p + [e];
      LapSplit(p);
      assert Chains(q) == Chains(p) + ([e] + After(e));
      assert Successors(q) == Successors(p) + After(e);
      ChainsAppend(Successors(p), After(e));
      ChainsAfter(e);
      assert Chains(Successors(q)) == Chains(Successors(p)) + After(e);
    }
  }

  /** The target of a tail-chain is a chain of one step. */
  lemma ChainsAfter(e: Cont)
    ensures Chains(After(e)) == After(e)
  {
    if After(e) != [] {
      assert After(e)[..0] == [];
    }
  }

  /** Draining performs every step of every queued chain exactly once: the
      steps it performs are a permutation of the queued chains' steps. */
  lemma {:induction false} DrainPermutation(q: seq<Cont>)
    ensures multiset(DrainTrace(q)) == multiset(Chains(q))
    decreases |Chains(q)|
  {
    if q != [] {
      LapSplit(q);
      DrainPermutation(Successors(q));
    }
  }

  /** A continuation is queued for the next lap exactly when an entry of
      this lap tail-chains into it. */
  lemma {:induction false} SuccessorsMember(q: seq<Cont>, c: Cont)
    ensures c in Successors(q) <==> exists e :: e in q && After(e) == [c]
  {
    if q != [] {
      var p, e := q[..|q| - 1], q[|q| - 1];
      assert q == p + [e];
      SuccessorsMember(p, c);
      if c in Successors(q) && c !in Successors(p) {
        assert After(e) == [c];
      }
    }
  }

  /** A duplicate-free queue stays duplicate-free from lap to lap. */
  lemma {:induction false} SuccessorsDistinct(q: seq<Cont>)
    requires Distinct(q)
    ensures Distinct(Successors(q))
  {
    if q != [] {
      var p, e := q[..|q| - 1], q[|q| - 1];
      assert q == p + [e];
      SuccessorsDistinct(p);
      if After(e) != [] {
        SuccessorsMember(p, After(e)[0]);
      }
    }
  }

  /** When every entry tail-chains, the next queue keeps the entries' order:
      its `i`-th entry is the target of the `i`-th entry. */
  lemma {:induction false} SuccessorsInOrder(q: seq<Cont>)
    requires forall e :: e in q ==> After(e) != []
    ensures |Successors(q)| == |q|
    ensures forall i :: 0 <= i < |q| ==> Successors(q)[i] == After(q[i])[0]
  {
    if q != [] {
      var p, e := q[..|q| - 1], q[|q| - 1];
      assert q == p + [e];
      assert forall e' :: e' in p ==> e' in q;
      SuccessorsInOrder(p);
      assert |After(e)| == 1;
    }
  }

  /** When no entry tail-chains, one lap empties the queue. */
  lemma {:induction false} SuccessorsNone(q: seq<Cont>)
    requires forall e :: e in q ==> After(e) == []
    ensures Successors(q) == []
  {
    if q != [] {
      var p := q[..|q| - 1];
      assert forall e' :: e' in p ==> e' in q;
      SuccessorsNone(p);
    }
  }

  /** A queue whose entries all return drains in a single lap, in queue
      order. */
  lemma DrainReturning(q: seq<Cont>)
    requires forall e :: e in q ==> After(e) == []
    ensures DrainTrace(q) == q
  {
    SuccessorsNone(q);
  }

  /** A queue whose entries all tail-chain once into a step that returns
      drains in two laps: the entries, then their targets. */
  lemma DrainTwoSteps(q: seq<Cont>)
    requires forall e :: e in q ==> After(e) != [] && After(After(e)[0]) == []
    ensures DrainTrace(q) == q + Successors(q)
  {
    if q != [] {
      forall t | t in Successors(q) ensures After(t) == [] {
        SuccessorsMember(q, t);
      }
      SuccessorsNone(Successors(q));
      assert DrainTrace(Successors(q)) == Successors(q) + DrainTrace([]);
    }
  }

  /** The first lap of a drain is the queue itself. */
  lemma DrainUnfold(lap: seq<Cont>, done: seq<Cont>, full: seq<Cont>)
    requires lap != []
    requires done + DrainTrace(lap) == full
    ensures forall c :: c in lap ==> c in full
    ensures Objects(lap) <= Objects(full)
    ensures (done + lap) + DrainTrace(Successors(lap)) == full
  {
    assert DrainTrace(lap) == lap + DrainTrace(Successors(lap));
    assert (done + lap) + DrainTrace(Successors(lap)) == done + (lap + DrainTrace(Successors(lap)));
    assert forall c :: c in lap ==> c in DrainTrace(lap);
  }

  /** Every step of a chain belongs to the chain's record. */
  lemma ChainHeads(e: Cont)
    ensures forall s :: s in Chain(e) ==> Head(s) == Head(e)
  {
  }

  /** Every step of the chains of `q` belongs to the record of some entry. */
  lemma {:induction false} ChainsHeads(q: seq<Cont>, s: Cont)
    requires s in Chains(q)
    ensures exists e :: e in q && Head(s) == Head(e)
  {
    var p, e := q[..|q| - 1], q[|q| - 1];
    assert q == p + [e];
    if s in Chain(e) {
      ChainHeads(e);
    } else {
      ChainsHeads(p, s);
      var e' :| e' in p && Head(s) == Head(e');
      assert e' in q;
    }
  }

  /** With one entry per record, the chains of the queue run the record of
      an entry exactly as many times as that entry's chain has steps. */
  lemma {:induction false} RunsInChains(q: seq<Cont>, e: Cont)
    requires DistinctHeads(q)
    requires e in q
    ensures RunsOf(Chains(q), e) == |Chain(e)|
  {
    var p, l := q[..|q| - 1], q[|q| - 1];
    DistinctHeadsLast(q);
    assert Chains(q) == Chains(p) + Chain(l);
    if e == l {
      RunsOfLast(p, e);
    } else {
      assert e in p by {
        assert q == p + [l];
      }
      RunsInChains(p, e);
      RunsOfEarlier(p, l, e);
    }
  }

  /** The chain added last is the only one that runs its record. */
  lemma RunsOfLast(p: seq<Cont>, e: Cont)
    requires forall e' :: e' in p ==> Head(e') != Head(e)
    ensures RunsOf(Chains(p) + Chain(e), e) == |Chain(e)|
  {
    RunsOfAppend(Chains(p), Chain(e), e);
    ChainsOtherHeads(p, e);
    RunsOfNone(Chains(p), e);
    RunsOfChain(e);
  }

  /** A chain added after that of `e`, on another record, leaves the runs
      of `e`'s record alone. */
  lemma RunsOfEarlier(p: seq<Cont>, l: Cont, e: Cont)
    requires Head(l) != Head(e)
    ensures RunsOf(Chains(p) + Chain(l), e) == RunsOf(Chains(p), e)
  {
    RunsOfAppend(Chains(p), Chain(l), e);
    ChainHeads(l);
    RunsOfNone(Chain(l), e);
  }

  /** Dropping the last entry keeps one entry per record, and the last
      entry's record is no other entry's. */
  lemma DistinctHeadsLast(q: seq<Cont>)
    requires DistinctHeads(q) && q != []
    ensures DistinctHeads(q[..|q| - 1])
    ensures forall e :: e in q[..|q| - 1] ==> Head(e) != Head(q[|q| - 1])
  {
    var p := q[..|q| - 1];
    forall e | e in p ensures Head(e) != Head(q[|q| - 1]) {
      var k :| 0 <= k < |p| && p[k] == e;
      assert q[k] == e;
    }
  }

  /** No chain of `q` touches a record none of its entries belongs to. */
  lemma ChainsOtherHeads(q: seq<Cont>, e: Cont)
    requires forall e' :: e' in q ==> Head(e') != Head(e)
    ensures forall s :: s in Chains(q) ==> Head(s) != Head(e)
  {
    forall s | s in Chains(q) ensures Head(s) != Head(e) {
      ChainsHeads(q, s);
    }
  }

  /** A chain runs its own record once per step. */
  lemma RunsOfChain(e: Cont)
    ensures RunsOf(Chain(e), e) == |Chain(e)|
  {
  }

  /** After a drain, every chain of a queue holding one entry per record has
      run to completion exactly once: each of its cells holds the value its
      step stores (when no other step writes that cell), and its record's run
      counter has grown by the number of steps in the chain. */
  lemma DrainCompletes(q: seq<Cont>, st: Store, e: Cont)
    requires Covers(st, DrainTrace(q))
    requires Holds(DrainTrace(q), DrainTrace(q), st)
    requires DistinctHeads(q) && SoleWriters(Chains(q))
    requires e in q
    ensures forall s :: s in Chain(e) ==> Dest(s).contents == Value(s)
    ensures e in DrainTrace(q)
    ensures RunCount(e) == Bumped(st[e].count, |Chain(e)|)
  {
    var t := DrainTrace(q);
    DrainSameSteps(q);
    InChains(q, e);
    forall s | s in Chain(e) ensures Dest(s).contents == Value(s) {
      StoredSoleWriter(t, s, st[s].cell);
    }
    RunsInChains(q, e);
  }

  /** A drain performs the same steps as the queued chains, so it runs each
      record as often as they do. */
  lemma DrainSameSteps(q: seq<Cont>)
    ensures forall s :: s in DrainTrace(q) <==> s in Chains(q)
    ensures forall e :: RunsOf(DrainTrace(q), e) == RunsOf(Chains(q), e)
  {
    DrainPermutation(q);
    forall s ensures s in DrainTrace(q) <==> s in Chains(q) {
      assert s in DrainTrace(q) <==> multiset(DrainTrace(q))[s] > 0;
      assert s in Chains(q) <==> multiset(Chains(q))[s] > 0;
    }
  }

  /** A drain changes only the cells and records of the queued chains. */
  lemma DrainObjects(q: seq<Cont>)
    ensures Objects(DrainTrace(q)) == Objects(Chains(q))
  {
    DrainSameSteps(q);
    SameObjects(DrainTrace(q), Chains(q));
  }

  /** The footprint of a queue is what the steps of its chains change. */
  lemma {:induction false} FootprintsChains(q: seq<Cont>)
    ensures Footprints(q) == Objects(Chains(q))
  {
    if q != [] {
      var p, e := q[..|q| - 1], q[|q| - 1];
      FootprintsChains(p);
      ObjectsAppend(Chains(p), Chain(e));
      ObjectsChain(e);
    }
  }

  /** Sequences with the same steps change the same objects. */
  lemma SameObjects(a: seq<Cont>, b: seq<Cont>)
    requires forall s :: s in a <==> s in b
    ensures Objects(a) == Objects(b)
  {
    forall o | o in Objects(a) ensures o in Objects(b) {
      var s :| s in a && (o == Dest(s) || o == Rec(s));
      assert s in b;
    }
    forall o | o in Objects(b) ensures o in Objects(a) {
      var s :| s in b && (o == Dest(s) || o == Rec(s));
      assert s in a;
    }
  }

  /** The chain of an entry is part of the chains of the queue. */
  lemma {:induction false} InChains(q: seq<Cont>, e: Cont)
    requires e in q
    ensures forall s :: s in Chain(e) ==> s in Chains(q)
  {
    var p, l := q[..|q| - 1], q[|q| - 1];
    assert q == p + [l];
    if e != l {
      assert e in p;
      InChains(p, e);
    }
  }
}
