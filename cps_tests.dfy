/**
 * The scenarios of tests/test-cps.c, each as a method that builds its
 * records on fresh cells, drives them through `cps_run`, `cps_resume` or the
 * round-robin scheduler, and returns what the test then checks. The
 * postconditions are the test's expectations, proved from the contracts of
 * the operations alone.
 */
module CpsTests {
  import opened Cps
  import opened RoundRobin
  import opened Wrappers

  /** test_cps_01: `cps_run` on one save_int stores its value and runs it
      once. */
  method TestCps01() returns (rc: int, result: uint, runCount: uint)
    ensures rc == 0 && result == 10 && runCount == 1
  {
    var cell := new Cell(0);
    var i := new SaveInt(cell, 10);
    var c := SaveIntResume(i);
    assert Chain(c) == [c];
    ghost var st := Capture([c]);
    CaptureNow([c]);
    rc := Run(c);
    Outcome([c], st, c);
    result, runCount := cell.contents, i.runCount;
  }

  /** test_cps_02: `cps_resume(i1, i2)` runs `i2` and then notifies `i1`;
      each stores its value and runs once. */
  method TestCps02() returns (rc: int, result1: uint, result2: uint, runCount1: uint, runCount2: uint)
    ensures rc == 0
    ensures result1 == 10 && result2 == 20
    ensures runCount1 == 1 && runCount2 == 1
  {
    var cell1 := new Cell(0);
    var cell2 := new Cell(0);
    var i1 := new SaveInt(cell1, 10);
    var i2 := new SaveInt(cell2, 20);
    rc := ResumeSaveInts(i1, i2);
    result1, result2 := cell1.contents, cell2.contents;
    runCount1, runCount2 := i1.runCount, i2.runCount;
  }

  /** `cps_resume(a, b)` on two save_int records on different cells. */
  method ResumeSaveInts(a: SaveInt, b: SaveInt) returns (rc: int)
    requires a.dest != b.dest
    modifies a, b, a.dest, b.dest
    ensures rc == 0
    ensures a.dest.contents == a.value && b.dest.contents == b.value
    ensures a.runCount == Bumped(old(a.runCount), 1)
    ensures b.runCount == Bumped(old(b.runCount), 1)
  {
    var ca, cb := SaveIntResume(a), SaveIntResume(b);
    ghost var t := Chain(cb) + Chain(ca);
    assert t == [cb, ca];
    ghost var st := Capture(t);
    CaptureNow(t);
    rc := Resume(ca, cb);
    ResumedPair(a, b, st);
  }

  /** Two save_int records on different cells, run one after the other:
      both cells hold their values and both counters have grown by one. */
  lemma ResumedPair(a: SaveInt, b: SaveInt, st: Store)
    requires a.dest != b.dest
    requires Covers(st, [SaveIntResume(b), SaveIntResume(a)])
    requires Holds([SaveIntResume(b), SaveIntResume(a)], [SaveIntResume(b), SaveIntResume(a)], st)
    ensures a.dest.contents == a.value && b.dest.contents == b.value
    ensures a.runCount == Bumped(st[SaveIntResume(a)].count, 1)
    ensures b.runCount == Bumped(st[SaveIntResume(b)].count, 1)
  {
    var t := [SaveIntResume(b), SaveIntResume(a)];
    Outcome(t, st, SaveIntResume(a));
    Outcome(t, st, SaveIntResume(b));
    assert multiset(t)[SaveIntResume(a)] == 1;
  }

  /** test_cps_03: draining a scheduler holding three save_int records runs
      each once and stores every value. */
  method TestCps03() returns (rc: int, results: seq<uint>, runCounts: seq<uint>)
    ensures rc == 0
    ensures results == [10, 20, 30]
    ensures runCounts == [1, 1, 1]
  {
    var i1, i2, i3, rr := NewSaveInts(10, 20, 30);
    rc := DrainSaveInts(i1, i2, i3, rr);
    results := [i1.dest.contents, i2.dest.contents, i3.dest.contents];
    runCounts := [i1.runCount, i2.runCount, i3.runCount];
  }

  /** test_cps_04: draining three save_int2 records runs both steps of
      each: all six cells hold their values and every counter is two. */
  method TestCps04() returns (rc: int, results: seq<uint>, runCounts: seq<uint>)
    ensures rc == 0
    ensures results == [10, 15, 20, 25, 30, 35]
    ensures runCounts == [2, 2, 2]
  {
    var i1, i2, i3, rr := NewSaveInt2s(10, 15, 20, 25, 30, 35);
    rc := DrainSaveInt2s(i1, i2, i3, rr);
    results := [i1.dest1.contents, i1.dest2.contents, i2.dest1.contents,
                i2.dest2.contents, i3.dest1.contents, i3.dest2.contents];
    runCounts := [i1.runCount, i2.runCount, i3.runCount];
  }

  /** test_cps_05: a save_int2 between two save_int records: the drain
      finishes all three chains. */
  method TestCps05() returns (rc: int, results: seq<uint>, runCounts: seq<uint>)
    ensures rc == 0
    ensures results == [10, 20, 25, 30]
    ensures runCounts == [1, 2, 1]
  {
    var i1, i2, i3, rr := NewMixed(10, 20, 25, 30);
    rc := DrainMixed(i1, i2, i3, rr);
    results := [i1.dest.contents, i2.dest1.contents, i2.dest2.contents, i3.dest.contents];
    runCounts := [i1.runCount, i2.runCount, i3.runCount];
  }

  /** test_cps_06: two laps over three save_int2 records. After the first
      lap only the first step of each has run; after the second, both. */
  method TestCps06() returns (rc1: int, afterLap1: seq<uint>, countsLap1: seq<uint>,
                              rc2: int, afterLap2: seq<uint>, countsLap2: seq<uint>)
    ensures rc1 == 0 && rc2 == 0
    ensures afterLap1 == [10, 0, 20, 0, 30, 0] && countsLap1 == [1, 1, 1]
    ensures afterLap2 == [10, 15, 20, 25, 30, 35] && countsLap2 == [2, 2, 2]
  {
    var i1, i2, i3, rr := NewSaveInt2s(10, 15, 20, 25, 30, 35);
    rc1 := FirstLapOf(i1, i2, i3, rr);
    afterLap1 := [i1.dest1.contents, i1.dest2.contents, i2.dest1.contents,
                  i2.dest2.contents, i3.dest1.contents, i3.dest2.contents];
    countsLap1 := [i1.runCount, i2.runCount, i3.runCount];
    rc2 := SecondLapOf(i1, i2, i3, rr);
    afterLap2 := [i1.dest1.contents, i1.dest2.contents, i2.dest1.contents,
                  i2.dest2.contents, i3.dest1.contents, i3.dest2.contents];
    countsLap2 := [i1.runCount, i2.runCount, i3.runCount];
  }

  /** Draining the three save_int records of test_cps_03. */
  method DrainSaveInts(i1: SaveInt, i2: SaveInt, i3: SaveInt, rr: Scheduler) returns (rc: int)
    requires i1.dest != i2.dest && i1.dest != i3.dest && i2.dest != i3.dest
    requires rr.Valid() && rr.queue == [SaveIntResume(i1), SaveIntResume(i2), SaveIntResume(i3)]
    modifies rr, i1, i2, i3, i1.dest, i2.dest, i3.dest
    ensures rc == 0
    ensures i1.dest.contents == i1.value && i2.dest.contents == i2.value && i3.dest.contents == i3.value
    ensures i1.runCount == Bumped(old(i1.runCount), 1)
    ensures i2.runCount == Bumped(old(i2.runCount), 1)
    ensures i3.runCount == Bumped(old(i3.runCount), 1)
  {
    ghost var q := rr.queue;
    FootprintsOfThree(q);
    DrainReturning(q);
    ghost var st := Capture(q);
    CaptureNow(q);
    rc := rr.Drain();
    RanSaveInts(i1, i2, i3, st, q);
  }

  /** Draining the three save_int2 records of test_cps_04. */
  method DrainSaveInt2s(i1: SaveInt2, i2: SaveInt2, i3: SaveInt2, rr: Scheduler) returns (rc: int)
    requires i1.dest1 != i1.dest2 && i1.dest1 != i2.dest1 && i1.dest1 != i2.dest2
    requires i1.dest1 != i3.dest1 && i1.dest1 != i3.dest2
    requires i1.dest2 != i2.dest1 && i1.dest2 != i2.dest2 && i1.dest2 != i3.dest1 && i1.dest2 != i3.dest2
    requires i2.dest1 != i2.dest2 && i2.dest1 != i3.dest1 && i2.dest1 != i3.dest2
    requires i2.dest2 != i3.dest1 && i2.dest2 != i3.dest2
    requires i3.dest1 != i3.dest2
    requires rr.Valid() && rr.queue == [SaveInt2Step1(i1), SaveInt2Step1(i2), SaveInt2Step1(i3)]
    modifies rr, i1, i2, i3, i1.dest1, i1.dest2, i2.dest1, i2.dest2, i3.dest1, i3.dest2
    ensures rc == 0
    ensures i1.dest1.contents == i1.value1 && i1.dest2.contents == i1.value2
    ensures i2.dest1.contents == i2.value1 && i2.dest2.contents == i2.value2
    ensures i3.dest1.contents == i3.value1 && i3.dest2.contents == i3.value2
    ensures i1.runCount == Bumped(old(i1.runCount), 2)
    ensures i2.runCount == Bumped(old(i2.runCount), 2)
    ensures i3.runCount == Bumped(old(i3.runCount), 2)
  {
    ghost var q := rr.queue;
    FootprintsOfThree(q);
    ghost var t := SaveInt2Drain(i1, i2, i3, q);
    ghost var st := Capture(t);
    CaptureNow(t);
    rc := rr.Drain();
    RanSaveInt2s(i1, i2, i3, st, t);
  }

  /** Draining the mixed queue of test_cps_05. */
  method DrainMixed(i1: SaveInt, i2: SaveInt2, i3: SaveInt, rr: Scheduler) returns (rc: int)
    requires i1.dest != i2.dest1 && i1.dest != i2.dest2 && i1.dest != i3.dest
    requires i2.dest1 != i2.dest2 && i2.dest1 != i3.dest && i2.dest2 != i3.dest
    requires rr.Valid() && rr.queue == [SaveIntResume(i1), SaveInt2Step1(i2), SaveIntResume(i3)]
    modifies rr, i1, i2, i3, i1.dest, i2.dest1, i2.dest2, i3.dest
    ensures rc == 0
    ensures i1.dest.contents == i1.value && i3.dest.contents == i3.value
    ensures i2.dest1.contents == i2.value1 && i2.dest2.contents == i2.value2
    ensures i1.runCount == Bumped(old(i1.runCount), 1)
    ensures i2.runCount == Bumped(old(i2.runCount), 2)
    ensures i3.runCount == Bumped(old(i3.runCount), 1)
  {
    ghost var q := rr.queue;
    FootprintsOfThree(q);
    ghost var t := MixedDrain(i1, i2, i3, q);
    ghost var st := Capture(t);
    CaptureNow(t);
    rc := rr.Drain();
    RanMixed(i1, i2, i3, st, t);
  }

  /** One lap over the first steps of three save_int2 records. */
  method FirstLapOf(i1: SaveInt2, i2: SaveInt2, i3: SaveInt2, rr: Scheduler) returns (rc: int)
    requires i1.dest1 != i2.dest1 && i1.dest1 != i3.dest1 && i2.dest1 != i3.dest1
    requires rr.Valid() && rr.queue == [SaveInt2Step1(i1), SaveInt2Step1(i2), SaveInt2Step1(i3)]
    modifies rr, i1, i2, i3, i1.dest1, i2.dest1, i3.dest1
    ensures rc == 0
    ensures rr.Valid() && rr.queue == [SaveInt2Step2(i1), SaveInt2Step2(i2), SaveInt2Step2(i3)]
    ensures i1.dest1.contents == i1.value1 && i2.dest1.contents == i2.value1 && i3.dest1.contents == i3.value1
    ensures i1.runCount == Bumped(old(i1.runCount), 1)
    ensures i2.runCount == Bumped(old(i2.runCount), 1)
    ensures i3.runCount == Bumped(old(i3.runCount), 1)
  {
    ghost var q := rr.queue;
    ghost var next := FirstLap(i1, i2, i3, q);
    ghost var st := Capture(q);
    CaptureNow(q);
    rc := rr.RunOneLap();
    RanFirstSteps(i1, i2, i3, st, q);
  }

  /** One lap over the second steps of three save_int2 records. */
  method SecondLapOf(i1: SaveInt2, i2: SaveInt2, i3: SaveInt2, rr: Scheduler) returns (rc: int)
    requires i1.dest2 != i2.dest2 && i1.dest2 != i3.dest2 && i2.dest2 != i3.dest2
    requires rr.Valid() && rr.queue == [SaveInt2Step2(i1), SaveInt2Step2(i2), SaveInt2Step2(i3)]
    modifies rr, i1, i2, i3, i1.dest2, i2.dest2, i3.dest2
    ensures rc == 0
    ensures rr.Valid() && rr.queue == []
    ensures i1.dest2.contents == i1.value2 && i2.dest2.contents == i2.value2 && i3.dest2.contents == i3.value2
    ensures i1.runCount == Bumped(old(i1.runCount), 1)
    ensures i2.runCount == Bumped(old(i2.runCount), 1)
    ensures i3.runCount == Bumped(old(i3.runCount), 1)
  {
    ghost var q := rr.queue;
    SecondLap(i1, i2, i3, q);
    ghost var st := Capture(q);
    CaptureNow(q);
    rc := rr.RunOneLap();
    RanSecondSteps(i1, i2, i3, st, q);
  }

  // ---------------------------------------------------------------------
  // Setting up the scenarios: records on fresh cells that hold 0, queued
  // in a fresh scheduler (SAVE_INT_INIT, SAVE_INT2_INIT, cps_rr_new and
  // cps_rr_add).

  method NewSaveInts(v1: uint, v2: uint, v3: uint) returns (i1: SaveInt, i2: SaveInt, i3: SaveInt, rr: Scheduler)
    ensures fresh(i1) && fresh(i2) && fresh(i3) && fresh(rr)
    ensures fresh(i1.dest) && fresh(i2.dest) && fresh(i3.dest)
    ensures i1.dest != i2.dest && i1.dest != i3.dest && i2.dest != i3.dest
    ensures i1.value == v1 && i2.value == v2 && i3.value == v3
    ensures i1.dest.contents == 0 && i2.dest.contents == 0 && i3.dest.contents == 0
    ensures i1.runCount == 0 && i2.runCount == 0 && i3.runCount == 0
    ensures rr.Valid() && rr.queue == [SaveIntResume(i1), SaveIntResume(i2), SaveIntResume(i3)]
  {
    var cell1 := new Cell(0);
    var cell2 := new Cell(0);
    var cell3 := new Cell(0);
    i1 := new SaveInt(cell1, v1);
    i2 := new SaveInt(cell2, v2);
    i3 := new SaveInt(cell3, v3);
    rr := new Scheduler();
    rr.Add(SaveIntResume(i1));
    rr.Add(SaveIntResume(i2));
    rr.Add(SaveIntResume(i3));
  }

  method NewSaveInt2s(v1a: uint, v1b: uint, v2a: uint, v2b: uint, v3a: uint, v3b: uint)
    returns (i1: SaveInt2, i2: SaveInt2, i3: SaveInt2, rr: Scheduler)
    ensures fresh(i1) && fresh(i2) && fresh(i3) && fresh(rr)
    ensures fresh(i1.dest1) && fresh(i2.dest1) && fresh(i3.dest1)
    ensures fresh(i1.dest2) && fresh(i2.dest2) && fresh(i3.dest2)
    ensures i1.dest1 != i1.dest2 && i1.dest1 != i2.dest1 && i1.dest1 != i2.dest2
    ensures i1.dest1 != i3.dest1 && i1.dest1 != i3.dest2
    ensures i1.dest2 != i2.dest1 && i1.dest2 != i2.dest2 && i1.dest2 != i3.dest1 && i1.dest2 != i3.dest2
    ensures i2.dest1 != i2.dest2 && i2.dest1 != i3.dest1 && i2.dest1 != i3.dest2
    ensures i2.dest2 != i3.dest1 && i2.dest2 != i3.dest2
    ensures i3.dest1 != i3.dest2
    ensures i1.value1 == v1a && i1.value2 == v1b && i2.value1 == v2a
    ensures i2.value2 == v2b && i3.value1 == v3a && i3.value2 == v3b
    ensures i1.dest1.contents == 0 && i2.dest1.contents == 0 && i3.dest1.contents == 0
    ensures i1.dest2.contents == 0 && i2.dest2.contents == 0 && i3.dest2.contents == 0
    ensures i1.runCount == 0 && i2.runCount == 0 && i3.runCount == 0
    ensures rr.Valid() && rr.queue == [SaveInt2Step1(i1), SaveInt2Step1(i2), SaveInt2Step1(i3)]
  {
    var cell1a := new Cell(0);
    var cell1b := new Cell(0);
    var cell2a := new Cell(0);
    var cell2b := new Cell(0);
    var cell3a := new Cell(0);
    var cell3b := new Cell(0);
    i1 := new SaveInt2(cell1a, v1a, cell1b, v1b);
    i2 := new SaveInt2(cell2a, v2a, cell2b, v2b);
    i3 := new SaveInt2(cell3a, v3a, cell3b, v3b);
    rr := new Scheduler();
    rr.Add(SaveInt2Step1(i1));
    rr.Add(SaveInt2Step1(i2));
    rr.Add(SaveInt2Step1(i3));
  }

  method NewMixed(v1: uint, v2a: uint, v2b: uint, v3: uint) returns (i1: SaveInt, i2: SaveInt2, i3: SaveInt, rr: Scheduler)
    ensures fresh(i1) && fresh(i2) && fresh(i3) && fresh(rr)
    ensures fresh(i1.dest) && fresh(i2.dest1) && fresh(i2.dest2) && fresh(i3.dest)
    ensures i1.dest != i2.dest1 && i1.dest != i2.dest2 && i1.dest != i3.dest
    ensures i2.dest1 != i2.dest2 && i2.dest1 != i3.dest && i2.dest2 != i3.dest
    ensures i1.value == v1 && i2.value1 == v2a && i2.value2 == v2b && i3.value == v3
    ensures i1.dest.contents == 0 && i2.dest1.contents == 0 && i2.dest2.contents == 0 && i3.dest.contents == 0
    ensures i1.runCount == 0 && i2.runCount == 0 && i3.runCount == 0
    ensures rr.Valid() && rr.queue == [SaveIntResume(i1), SaveInt2Step1(i2), SaveIntResume(i3)]
  {
    var cell1 := new Cell(0);
    var cell2a := new Cell(0);
    var cell2b := new Cell(0);
    var cell3 := new Cell(0);
    i1 := new SaveInt(cell1, v1);
    i2 := new SaveInt2(cell2a, v2a, cell2b, v2b);
    i3 := new SaveInt(cell3, v3);
    rr := new Scheduler();
    rr.Add(SaveIntResume(i1));
    rr.Add(SaveInt2Step1(i2));
    rr.Add(SaveIntResume(i3));
  }

  // ---------------------------------------------------------------------
  // The steps of the scenarios and what running them leaves.

  /** The footprint of a three-entry queue, entry by entry. */
  lemma FootprintsOfThree(q: seq<Cont>)
    requires |q| == 3
    ensures Footprints(q) == Footprint(q[0]) + Footprint(q[1]) + Footprint(q[2])
  {
    assert q[..2] == [q[0], q[1]] && q[..2][..1] == [q[0]] && q[..2][..1][..0] == [];
    assert Footprints(q[..2][..1]) == Footprint(q[0]);
    assert Footprints(q[..2]) == Footprint(q[0]) + Footprint(q[1]);
  }

  /** The next queue after a three-entry lap, target by target. */
  lemma SuccessorsOfThree(q: seq<Cont>)
    requires |q| == 3
    ensures Successors(q) == After(q[0]) + After(q[1]) + After(q[2])
  {
    assert q[..2] == [q[0], q[1]] && q[..2][..1] == [q[0]] && q[..2][..1][..0] == [];
    assert Successors(q[..2][..1]) == After(q[0]);
    assert Successors(q[..2]) == After(q[0]) + After(q[1]);
  }

  /** The drain of test_cps_04: the first steps, then the second steps. */
  lemma SaveInt2Drain(a: SaveInt2, b: SaveInt2, c: SaveInt2, q: seq<Cont>) returns (t: seq<Cont>)
    requires q == [SaveInt2Step1(a), SaveInt2Step1(b), SaveInt2Step1(c)]
    ensures t == q + [SaveInt2Step2(a), SaveInt2Step2(b), SaveInt2Step2(c)]
    ensures DrainTrace(q) == t
  {
    DrainTwoSteps(q);
    SuccessorsOfThree(q);
    t := q + Successors(q);
  }

  /** The drain of test_cps_05: the three entries, then the second step of
      the save_int2 record. */
  lemma MixedDrain(a: SaveInt, b: SaveInt2, c: SaveInt, q: seq<Cont>) returns (t: seq<Cont>)
    requires q == [SaveIntResume(a), SaveInt2Step1(b), SaveIntResume(c)]
    ensures t == q + [SaveInt2Step2(b)]
    ensures DrainTrace(q) == t
  {
    SuccessorsOfThree(q);
    assert Successors(q) == [SaveInt2Step2(b)];
    DrainReturning(Successors(q));
    t := q + [SaveInt2Step2(b)];
  }

  /** What a lap over a three-entry queue may change, entry by entry. */
  lemma ObjectsOfThree(q: seq<Cont>)
    requires |q| == 3
    ensures Objects(q) == {Dest(q[0]), Rec(q[0]), Dest(q[1]), Rec(q[1]), Dest(q[2]), Rec(q[2])}
  {
    assert q == [q[0]] + [q[1]] + [q[2]];
    ObjectsAppend([q[0]] + [q[1]], [q[2]]);
    ObjectsAppend([q[0]], [q[1]]);
    ObjectsOne(q[0], q);
    ObjectsOne(q[1], q);
    ObjectsOne(q[2], q);
  }

  /** The first lap of test_cps_06 changes the first cells and the records,
      and queues the second steps in the same order. */
  lemma FirstLap(a: SaveInt2, b: SaveInt2, c: SaveInt2, q: seq<Cont>) returns (next: seq<Cont>)
    requires q == [SaveInt2Step1(a), SaveInt2Step1(b), SaveInt2Step1(c)]
    ensures Objects(q) == {a.dest1, a, b.dest1, b, c.dest1, c}
    ensures next == Successors(q) == [SaveInt2Step2(a), SaveInt2Step2(b), SaveInt2Step2(c)]
  {
    ObjectsOfThree(q);
    SuccessorsOfThree(q);
    next := Successors(q);
  }

  /** The second lap of test_cps_06 changes the second cells and the
      records. */
  lemma SecondLap(a: SaveInt2, b: SaveInt2, c: SaveInt2, q: seq<Cont>)
    requires q == [SaveInt2Step2(a), SaveInt2Step2(b), SaveInt2Step2(c)]
    ensures Objects(q) == {a.dest2, a, b.dest2, b, c.dest2, c}
    ensures Successors(q) == []
  {
    ObjectsOfThree(q);
    SuccessorsOfThree(q);
  }

  /** Three save_int records on different cells, run in sequence: every
      cell holds its value and every counter has grown by one. */
  lemma RanSaveInts(a: SaveInt, b: SaveInt, c: SaveInt, st: Store, t: seq<Cont>)
    requires a.dest != b.dest && a.dest != c.dest && b.dest != c.dest
    requires t == [SaveIntResume(a), SaveIntResume(b), SaveIntResume(c)]
    requires Covers(st, t) && Holds(t, t, st)
    ensures a.dest.contents == a.value && b.dest.contents == b.value && c.dest.contents == c.value
    ensures a.runCount == Bumped(st[t[0]].count, 1)
    ensures b.runCount == Bumped(st[t[1]].count, 1)
    ensures c.runCount == Bumped(st[t[2]].count, 1)
  {
    Outcome(t, st, t[0]);
    Outcome(t, st, t[1]);
    Outcome(t, st, t[2]);
    assert multiset(t)[t[0]] == 1 && multiset(t)[t[1]] == 1 && multiset(t)[t[2]] == 1;
  }

  /** Both steps of three save_int2 records on six different cells: every
      cell holds its value and every counter has grown by two. */
  lemma RanSaveInt2s(a: SaveInt2, b: SaveInt2, c: SaveInt2, st: Store, t: seq<Cont>)
    requires a.dest1 != a.dest2 && a.dest1 != b.dest1 && a.dest1 != b.dest2
    requires a.dest1 != c.dest1 && a.dest1 != c.dest2
    requires a.dest2 != b.dest1 && a.dest2 != b.dest2 && a.dest2 != c.dest1 && a.dest2 != c.dest2
    requires b.dest1 != b.dest2 && b.dest1 != c.dest1 && b.dest1 != c.dest2
    requires b.dest2 != c.dest1 && b.dest2 != c.dest2
    requires c.dest1 != c.dest2
    requires t == [SaveInt2Step1(a), SaveInt2Step1(b), SaveInt2Step1(c),
                   SaveInt2Step2(a), SaveInt2Step2(b), SaveInt2Step2(c)]
    requires Covers(st, t) && Holds(t, t, st)
    ensures a.dest1.contents == a.value1 && a.dest2.contents == a.value2
    ensures b.dest1.contents == b.value1 && b.dest2.contents == b.value2
    ensures c.dest1.contents == c.value1 && c.dest2.contents == c.value2
    ensures a.runCount == Bumped(st[t[0]].count, 2)
    ensures b.runCount == Bumped(st[t[1]].count, 2)
    ensures c.runCount == Bumped(st[t[2]].count, 2)
  {
    RanOneOfThree(a, b, c, st, t);
    RanOneOfThree(b, a, c, st, t);
    RanOneOfThree(c, a, b, st, t);
  }

  /** Both steps of one save_int2 record, each run once and each the only
      writer of its cell: both cells hold their values and the counter has
      grown by two. */
  lemma RanBothSteps(t: seq<Cont>, st: Store, r: SaveInt2)
    requires Covers(st, t) && Holds(t, t, st)
    requires multiset(t)[SaveInt2Step1(r)] == 1 && multiset(t)[SaveInt2Step2(r)] == 1
    requires forall c :: c in t && Dest(c) == r.dest1 ==> c == SaveInt2Step1(r)
    requires forall c :: c in t && Dest(c) == r.dest2 ==> c == SaveInt2Step2(r)
    ensures r.dest1.contents == r.value1 && r.dest2.contents == r.value2
    ensures r.runCount == Bumped(st[SaveInt2Step1(r)].count, 2)
  {
    Outcome(t, st, SaveInt2Step1(r));
    Outcome(t, st, SaveInt2Step2(r));
  }

  /** Record `a` among the six steps of three save_int2 records, its two
      cells apart from every other cell. */
  lemma RanOneOfThree(a: SaveInt2, b: SaveInt2, c: SaveInt2, st: Store, t: seq<Cont>)
    requires a.dest1 != a.dest2 && a.dest1 != b.dest1 && a.dest1 != b.dest2
    requires a.dest1 != c.dest1 && a.dest1 != c.dest2
    requires a.dest2 != b.dest1 && a.dest2 != b.dest2 && a.dest2 != c.dest1 && a.dest2 != c.dest2
    requires multiset(t) == multiset{SaveInt2Step1(a), SaveInt2Step1(b), SaveInt2Step1(c),
                                     SaveInt2Step2(a), SaveInt2Step2(b), SaveInt2Step2(c)}
    requires Covers(st, t) && Holds(t, t, st)
    ensures a.dest1.contents == a.value1 && a.dest2.contents == a.value2
    ensures a.runCount == Bumped(st[SaveInt2Step1(a)].count, 2)
  {
    RanBothSteps(t, st, a);
  }

  /** The steps of test_cps_05 on four different cells: every cell holds
      its value; the save_int counters have grown by one and the save_int2
      counter by two. */
  lemma RanMixed(a: SaveInt, b: SaveInt2, c: SaveInt, st: Store, t: seq<Cont>)
    requires a.dest != b.dest1 && a.dest != b.dest2 && a.dest != c.dest
    requires b.dest1 != b.dest2 && b.dest1 != c.dest && b.dest2 != c.dest
    requires t == [SaveIntResume(a), SaveInt2Step1(b), SaveIntResume(c), SaveInt2Step2(b)]
    requires Covers(st, t) && Holds(t, t, st)
    ensures a.dest.contents == a.value && c.dest.contents == c.value
    ensures b.dest1.contents == b.value1 && b.dest2.contents == b.value2
    ensures a.runCount == Bumped(st[t[0]].count, 1)
    ensures b.runCount == Bumped(st[t[1]].count, 2)
    ensures c.runCount == Bumped(st[t[2]].count, 1)
  {
    Outcome(t, st, t[0]);
    Outcome(t, st, t[1]);
    Outcome(t, st, t[2]);
    Outcome(t, st, t[3]);
    assert multiset(t)[t[0]] == 1 && multiset(t)[t[2]] == 1;
    assert multiset(t)[t[1]] == 1 && multiset(t)[t[3]] == 1;
  }

  /** The first steps of three save_int2 records on different cells: each
      first cell holds its value and each counter has grown by one. */
  lemma RanFirstSteps(a: SaveInt2, b: SaveInt2, c: SaveInt2, st: Store, t: seq<Cont>)
    requires a.dest1 != b.dest1 && a.dest1 != c.dest1 && b.dest1 != c.dest1
    requires t == [SaveInt2Step1(a), SaveInt2Step1(b), SaveInt2Step1(c)]
    requires Covers(st, t) && Holds(t, t, st)
    ensures a.dest1.contents == a.value1 && b.dest1.contents == b.value1 && c.dest1.contents == c.value1
    ensures a.runCount == Bumped(st[t[0]].count, 1)
    ensures b.runCount == Bumped(st[t[1]].count, 1)
    ensures c.runCount == Bumped(st[t[2]].count, 1)
  {
    Outcome(t, st, t[0]);
    Outcome(t, st, t[1]);
    Outcome(t, st, t[2]);
    assert multiset(t)[t[0]] == 1 && multiset(t)[t[1]] == 1 && multiset(t)[t[2]] == 1;
  }

  /** The second steps of three save_int2 records on different cells: each
      second cell holds its value and each counter has grown by one. */
  lemma RanSecondSteps(a: SaveInt2, b: SaveInt2, c: SaveInt2, st: Store, t: seq<Cont>)
    requires a.dest2 != b.dest2 && a.dest2 != c.dest2 && b.dest2 != c.dest2
    requires t == [SaveInt2Step2(a), SaveInt2Step2(b), SaveInt2Step2(c)]
    requires Covers(st, t) && Holds(t, t, st)
    ensures a.dest2.contents == a.value2 && b.dest2.contents == b.value2 && c.dest2.contents == c.value2
    ensures a.runCount == Bumped(st[t[0]].count, 1)
    ensures b.runCount == Bumped(st[t[1]].count, 1)
    ensures c.runCount == Bumped(st[t[2]].count, 1)
  {
    Outcome(t, st, t[0]);
    Outcome(t, st, t[1]);
    Outcome(t, st, t[2]);
    assert multiset(t)[t[0]] == 1 && multiset(t)[t[1]] == 1 && multiset(t)[t[2]] == 1;
  }
}
