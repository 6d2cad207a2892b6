/**
 * The continuation-passing step model driven by tests/test-cps.c: the two
 * test continuation records, their three resume functions, and the
 * trampoline behind `cps_run` and a top-level `cps_resume`.
 *
 * A continuation reference (`struct cps_cont *`) is modelled as a closed
 * tagged value `Cont`: its tag is the resume function and its payload is the
 * enclosing record that `cps_container_of` recovers. A resume function does
 * its local work and then either returns to `next` (`cps_return`) or hands
 * control to a target with `next` passed through (`cps_resume`); the model
 * reports that choice as a `Signal` so that the driver (trampoline or
 * scheduler) decides what runs next.
 */
module Cps {
  import opened Wrappers

  /** `unsigned int`: 32 bits, arithmetic wraps around. */
  const UintModulus: int := 0x1_0000_0000
  type uint = x: int | 0 <= x < 0x1_0000_0000

  /** `x++` on an `unsigned int`. */
  function Inc(x: uint): (r: uint)
    ensures x < UintModulus - 1 ==> r == x + 1
    ensures x == UintModulus - 1 ==> r == 0
  {
    (x + 1) % UintModulus
  }

  /** `x` after `n` increments. */
  function Bumped(x: uint, n: nat): uint {
    (x + n) % UintModulus
  }

  /** An `unsigned int` variable a continuation writes through its `dest`. */
  class Cell {
    var contents: uint

    constructor (v: uint)
      ensures contents == v
    {
      contents := v;
    }
  }

  /** `struct save_int`: one step that stores `value` into `*dest`. */
  class SaveInt {
    const dest: Cell
    const value: uint
    var runCount: uint

    /** `SAVE_INT_INIT(d, v)` */
    constructor (d: Cell, v: uint)
      ensures dest == d && value == v && runCount == 0
    {
      dest, value, runCount := d, v, 0;
    }

    /** `save_int__resume`: store the value, count the run, return to `next`. */
    method Resume() returns (sig: Signal)
      modifies this, dest
      ensures dest.contents == value
      ensures runCount == Inc(old(runCount))
      ensures sig == Return
    {
      dest.contents := value;
      runCount := Inc(runCount);
      sig := Return;
    }
  }

  /** `struct save_int2`: two steps, each storing one value; the record
      embeds one continuation per step and shares one run counter. */
  class SaveInt2 {
    const dest1: Cell
    const value1: uint
    const dest2: Cell
    const value2: uint
    var runCount: uint

    /** `SAVE_INT2_INIT(d1, v1, d2, v2)` */
    constructor (d1: Cell, v1: uint, d2: Cell, v2: uint)
      ensures dest1 == d1 && value1 == v1 && dest2 == d2 && value2 == v2 && runCount == 0
    {
      dest1, value1, dest2, value2, runCount := d1, v1, d2, v2, 0;
    }

    /** `save_int2__step1`: store the first value, count the run, and
        tail-chain into this record's second step with the same `next`. */
    method Step1() returns (sig: Signal)
      modifies this, dest1
      ensures dest1.contents == value1
      ensures runCount == Inc(old(runCount))
      ensures sig == TailChain(SaveInt2Step2(this))
    {
      dest1.contents := value1;
      runCount := Inc(runCount);
      sig := TailChain(SaveInt2Step2(this));
    }

    /** `save_int2__step2`: store the second value, count the run, return. */
    method Step2() returns (sig: Signal)
      modifies this, dest2
      ensures dest2.contents == value2
      ensures runCount == Inc(old(runCount))
      ensures sig == Return
    {
      dest2.contents := value2;
      runCount := Inc(runCount);
      sig := Return;
    }
  }

  /** A continuation reference: which resume function, on which record. */
  datatype Cont =
    | SaveIntResume(one: SaveInt)
    | SaveInt2Step1(two: SaveInt2)
    | SaveInt2Step2(two: SaveInt2)

  /** How a resume function finished: `cps_return(next)` or
      `cps_resume(next, target)`. */
  datatype Signal = Return | TailChain(target: Cont)

  /** The cell a step writes. */
  function Dest(c: Cont): Cell {
    match c
    case SaveIntResume(r) => r.dest
    case SaveInt2Step1(r) => r.dest1
    case SaveInt2Step2(r) => r.dest2
  }

  /** The value a step writes. */
  function Value(c: Cont): uint {
    match c
    case SaveIntResume(r) => r.value
    case SaveInt2Step1(r) => r.value1
    case SaveInt2Step2(r) => r.value2
  }

  /** The enclosing record (`cps_container_of`). */
  function Rec(c: Cont): object {
    match c
    case SaveIntResume(r) => r
    case SaveInt2Step1(r) => r
    case SaveInt2Step2(r) => r
  }

  /** The record's first continuation: two references denote the same record
      exactly when their heads agree. */
  function Head(c: Cont): Cont {
    match c
    case SaveIntResume(_) => c
    case SaveInt2Step1(_) => c
    case SaveInt2Step2(r) => SaveInt2Step1(r)
  }

  /** The record's run counter. */
  function RunCount(c: Cont): uint
    reads Rec(c)
  {
    match c
    case SaveIntResume(r) => r.runCount
    case SaveInt2Step1(r) => r.runCount
    case SaveInt2Step2(r) => r.runCount
  }

  /** The continuations a step tail-chains into (none, or one). */
  function After(c: Cont): seq<Cont> {
    match c
    case SaveInt2Step1(r) => [SaveInt2Step2(r)]
    case _ => []
  }

  /** The steps one chain performs from `c` until it returns. */
  function Chain(c: Cont): seq<Cont> {
    [c] + After(c)
  }

  /** The steps the trampoline performs for `c` with `next` to notify. */
  function Trace(c: Cont, next: Option<Cont>): seq<Cont> {
    Chain(c) + if next.Some? then Chain(next.value) else []
  }

  /** Invoke the resume function a reference names (`cont->resume`). */
  method Invoke(c: Cont) returns (sig: Signal)
    modifies Rec(c), Dest(c)
    ensures Dest(c).contents == Value(c)
    ensures RunCount(c) == Inc(old(RunCount(c)))
    ensures sig == if After(c) == [] then Return else TailChain(After(c)[0])
  {
    match c
    case SaveIntResume(r) => sig := r.Resume();
    case SaveInt2Step1(r) => sig := r.Step1();
    case SaveInt2Step2(r) => sig := r.Step2();
  }

  // ---------------------------------------------------------------------
  // The effect of a sequence of steps on the cells and run counters.

  /** The cells and records a sequence of steps may change. */
  ghost function Objects(t: seq<Cont>): set<object> {
    (set c | c in t :: Dest(c) as object) + (set c | c in t :: Rec(c))
  }

  /** The cells and the record the chain of `c` changes. */
  ghost function Footprint(c: Cont): set<object> {
    match c
    case SaveIntResume(r) => {r.dest, r}
    case SaveInt2Step1(r) => {r.dest1, r.dest2, r}
    case SaveInt2Step2(r) => {r.dest2, r}
  }

  lemma ObjectsChain(c: Cont)
    ensures Objects(Chain(c)) == Footprint(c)
  {
    ObjectsAppend([c], After(c));
    ObjectsOne(c, [c]);
    if c.SaveInt2Step1? {
      ObjectsOne(After(c)[0], After(c));
    }
  }

  lemma ObjectsAppend(a: seq<Cont>, b: seq<Cont>)
    ensures Objects(a + b) == Objects(a) + Objects(b)
  {
  }

  /** The contents of `x` after the steps `t`, starting from `v`: the value
      of the last step that writes `x`. */
  ghost function Stored(t: seq<Cont>, x: Cell, v: uint): uint {
    if t == [] then v
    else if Dest(t[|t| - 1]) == x then Value(t[|t| - 1])
    else Stored(t[..|t| - 1], x, v)
  }

  /** How many of the steps `t` belong to the record of `c`. */
  ghost function RunsOf(t: seq<Cont>, c: Cont): nat {
    match c
    case SaveIntResume(_) => multiset(t)[c]
    case SaveInt2Step1(r) => multiset(t)[c] + multiset(t)[SaveInt2Step2(r)]
    case SaveInt2Step2(r) => multiset(t)[SaveInt2Step1(r)] + multiset(t)[c]
  }

  /** What one continuation sees of the state: its cell and its record's
      run counter. */
  datatype Seen = Seen(cell: uint, count: uint)

  /** A snapshot of the cells and counters of some continuations. */
  type Store = map<Cont, Seen>

  ghost predicate Covers(st: Store, full: seq<Cont>) {
    forall c :: c in full ==> c in st
  }

  /** The current cells and counters of the continuations `full`. */
  ghost function Capture(full: seq<Cont>): (st: Store)
    reads Objects(full)
    ensures Covers(st, full)
  {
    map c | c in full :: Seen(Dest(c).contents, RunCount(c))
  }

  /** Every cell and counter of `full` holds what the steps `t` leave when
      started from the snapshot `st`. */
  ghost predicate Holds(full: seq<Cont>, t: seq<Cont>, st: Store)
    reads Objects(full)
    requires Covers(st, full)
  {
    forall c :: c in full ==>
      Dest(c).contents == Stored(t, Dest(c), st[c].cell) &&
      RunCount(c) == Bumped(st[c].count, RunsOf(t, c))
  }

  /** The snapshot `mid` is what the steps `t` leave from the snapshot `st`. */
  ghost predicate Advanced(full: seq<Cont>, mid: Store, t: seq<Cont>, st: Store)
    requires Covers(st, full) && Covers(mid, full)
  {
    forall c :: c in full ==>
      mid[c] == Seen(Stored(t, Dest(c), st[c].cell), Bumped(st[c].count, RunsOf(t, c)))
  }

  // ---------------------------------------------------------------------
  // The trampoline.

  /** Drive `c` with `next` to notify: an explicit loop, never a nested call,
      that steps until the chain of `c` and then that of `next` have returned
      to the terminal sentinel. */
  method Trampoline(c: Cont, next: Option<Cont>) returns (rc: int)
    modifies Objects(Trace(c, next))
    ensures rc == 0
    ensures Holds(Trace(c, next), Trace(c, next), old(Capture(Trace(c, next))))
  {
    ghost var full := Trace(c, next);
    ghost var st := Capture(full);
    ghost var done: seq<Cont> := [];
    HoldsStart(full);
    var cur, k := Some(c), next;
    while cur.Some?
      invariant done + Pending(cur, k) == full
      invariant Holds(full, done, st)
      decreases |Pending(cur, k)|
    {
      var step := cur.value;
      PendingStep(step, k, done, full);
      SnapshotAdvanced(full, done, st);
      ghost var mid := Capture(full);
      var sig := Step(step, full);
      Compose(full, done, [step], st, mid);
      done := done + [step];
      match sig
      case TailChain(t) =>
        cur := Some(t);
      case Return =>
        cur, k := k, None;
    }
    assert done == full;
    rc := 0;
  }

  /** The steps the trampoline still has to perform: the rest of the
      current chain, then the chain of the continuation to notify. */
  ghost function Pending(cur: Option<Cont>, k: Option<Cont>): seq<Cont> {
    if cur.None? then [] else Trace(cur.value, k)
  }

  /** The pending steps of `c` are `c` itself, then those of the target it
      tail-chains into, or else those of the continuation to notify. */
  lemma PendingHead(c: Cont, k: Option<Cont>)
    ensures After(c) != [] ==> Pending(Some(c), k) == [c] + Pending(Some(After(c)[0]), k)
    ensures After(c) == [] ==> Pending(Some(c), k) == [c] + Pending(k, None)
  {
    var notify := if k.Some? then Chain(k.value) else [];
    assert Pending(Some(c), k) == Chain(c) + notify;
    if After(c) != [] {
      var t := After(c)[0];
      assert After(t) == [];
      assert Pending(Some(t), k) == [t] + notify;
      assert Chain(c) == [c] + [t];
      assert ([c] + [t]) + notify == [c] + ([t] + notify);
    } else {
      assert Chain(c) == [c];
      if k.Some? {
        assert Pending(k, None) == Chain(k.value) + [];
        assert Chain(k.value) + [] == notify;
      }
    }
  }

  /** Performing the first pending step leaves the steps of the target the
      step tail-chains into, or else those of the continuation to notify. */
  lemma PendingStep(c: Cont, k: Option<Cont>, done: seq<Cont>, full: seq<Cont>)
    requires done + Pending(Some(c), k) == full
    ensures c in full
    ensures After(c) != [] ==> (done + [c]) + Pending(Some(After(c)[0]), k) == full
    ensures After(c) == [] ==> (done + [c]) + Pending(k, None) == full
  {
    PendingHead(c, k);
    if After(c) != [] {
      ShiftStep(done, c, Pending(Some(After(c)[0]), k), full);
    } else {
      ShiftStep(done, c, Pending(k, None), full);
    }
  }

  /** Moving the first remaining step to the steps done. */
  lemma ShiftStep(done: seq<Cont>, c: Cont, rest: seq<Cont>, full: seq<Cont>)
    requires done + ([c] + rest) == full
    ensures c in full && (done + [c]) + rest == full
  {
    assert full[|done|] == c;
  }

  /** One invocation of `c` seen from the continuations `full` around it:
      the step changes its own cell and counter and nothing else of `full`. */
  method Step(c: Cont, ghost full: seq<Cont>) returns (sig: Signal)
    requires c in full
    modifies Objects(full)
    ensures Holds(full, [c], old(Capture(full)))
    ensures sig == if After(c) == [] then Return else TailChain(After(c)[0])
  {
    ghost var before, inner := Capture(full), Capture([c]);
    ObjectsOne(c, full);
    CaptureAgree(full, [c]);
    CaptureNow(full);
    sig := Invoke(c);
    InvokeHolds(c, inner);
    forall d | d in full
      ensures Dest(d) in Objects([c]) || Dest(d).contents == before[d].cell
      ensures Rec(d) in Objects([c]) || RunCount(d) == before[d].count
    {
      if Dest(d) != Dest(c) {
        assert Dest(d) as object != Rec(c);
        assert Dest(d).contents == old(Dest(d).contents);
      }
      if Rec(d) != Rec(c) {
        assert Rec(d) != Dest(c) as object;
        match d
        case SaveIntResume(r) =>
          assert r.runCount == old(r.runCount);
        case SaveInt2Step1(r) =>
          assert r.runCount == old(r.runCount);
        case SaveInt2Step2(r) =>
          assert r.runCount == old(r.runCount);
      }
    }
    Widen(full, [c], before, inner);
  }

  /** `cps_run(cont)`: run a chain to completion with no continuation after it. */
  method Run(c: Cont) returns (rc: int)
    modifies Objects(Chain(c))
    ensures rc == 0
    ensures Holds(Chain(c), Chain(c), old(Capture(Chain(c))))
  {
    assert Trace(c, None) == Chain(c);
    rc := Trampoline(c, None);
  }

  /** `cps_resume(next, target)` called outside any resume function: run
      `target`'s chain, then notify `next`. */
  method Resume(next: Cont, target: Cont) returns (rc: int)
    modifies Objects(Chain(target) + Chain(next))
    ensures rc == 0
    ensures Holds(Chain(target) + Chain(next), Chain(target) + Chain(next),
                  old(Capture(Chain(target) + Chain(next))))
  {
    rc := Trampoline(target, Some(next));
  }

  // ---------------------------------------------------------------------
  // Lemmas about the effect of steps.

  /** Running `d` then `l` leaves each cell as running `l` from what `d` left. */
  lemma {:induction false} StoredAppend(d: seq<Cont>, l: seq<Cont>, x: Cell, v: uint)
    ensures Stored(d + l, x, v) == Stored(l, x, Stored(d, x, v))
  {
    if l == [] {
      assert d + l == d;
    } else {
      var l' := l[..|l| - 1];
      assert (d + l)[..|d + l| - 1] == d + l';
      assert (d + l)[|d + l| - 1] == l[|l| - 1];
      StoredAppend(d, l', x, v);
    }
  }

  /** Steps that do not write `x` leave it alone. */
  lemma {:induction false} StoredUntouched(t: seq<Cont>, x: Cell, v: uint)
    requires forall c :: c in t ==> Dest(c) != x
    ensures Stored(t, x, v) == v
  {
    if t != [] {
      assert t[|t| - 1] in t;
      StoredUntouched(t[..|t| - 1], x, v);
    }
  }

  /** When one step is the only writer of its cell, the cell ends with that
      step's value, whatever the order of the other steps. */
  lemma {:induction false} StoredSoleWriter(t: seq<Cont>, s: Cont, v: uint)
    requires s in t
    requires forall c :: c in t && Dest(c) == Dest(s) ==> c == s
    ensures Stored(t, Dest(s), v) == Value(s)
  {
    var last := t[|t| - 1];
    if Dest(last) != Dest(s) {
      var t' := t[..|t| - 1];
      assert t == t' + [last];
      assert s in t';
      StoredSoleWriter(t', s, v);
    } else {
      assert last == s;
    }
  }

  /** After the steps `t` have run from the snapshot `st`, a step that is
      the only writer of its cell has left its value there, and its
      record's counter has grown by the record's runs in `t`. */
  lemma Outcome(t: seq<Cont>, st: Store, s: Cont)
    requires Covers(st, t) && Holds(t, t, st)
    requires s in t
    requires forall c :: c in t && Dest(c) == Dest(s) ==> c == s
    ensures Dest(s).contents == Value(s)
    ensures RunCount(s) == Bumped(st[s].count, RunsOf(t, s))
  {
    StoredSoleWriter(t, s, st[s].cell);
  }

  lemma BumpedAdd(x: uint, a: nat, b: nat)
    ensures Bumped(Bumped(x, a), b) == Bumped(x, a + b)
  {
  }

  /** Two references name the same record exactly when their heads agree. */
  lemma RecHead(c: Cont, d: Cont)
    ensures Rec(c) == Rec(d) <==> Head(c) == Head(d)
  {
  }

  /** A step of a record changes its run counter only through that record. */
  lemma RunsOfHead(t: seq<Cont>, c: Cont, d: Cont)
    requires Head(c) == Head(d)
    ensures RunsOf(t, c) == RunsOf(t, d)
  {
  }

  /** No step of `t` belongs to the record of `c`. */
  lemma RunsOfNone(t: seq<Cont>, c: Cont)
    requires forall d :: d in t ==> Head(d) != Head(c)
    ensures RunsOf(t, c) == 0
  {
    match c
    case SaveIntResume(_) =>
      assert c !in t;
    case SaveInt2Step1(r) =>
      assert c !in t;
      assert Head(SaveInt2Step2(r)) == Head(c);
      assert SaveInt2Step2(r) !in t;
    case SaveInt2Step2(r) =>
      assert c !in t;
      assert Head(SaveInt2Step1(r)) == Head(c);
      assert SaveInt2Step1(r) !in t;
  }

  /** A step's own objects, and where they sit in a larger footprint. */
  lemma ObjectsOne(c: Cont, full: seq<Cont>)
    requires c in full
    ensures Objects([c]) == {Dest(c), Rec(c)}
    ensures Objects([c]) <= Objects(full)
  {
  }

  /** A snapshot describes the state it was taken from, with no steps. */
  lemma HoldsStart(full: seq<Cont>)
    ensures Holds(full, [], Capture(full))
  {
    forall c | c in full
      ensures Dest(c).contents == Stored([], Dest(c), Capture(full)[c].cell)
      ensures RunCount(c) == Bumped(Capture(full)[c].count, RunsOf([], c))
    {
      assert RunsOf([], c) == 0;
    }
  }

  /** A snapshot of a state that `t` produced from `st` is what `t` produces
      from `st`. */
  lemma SnapshotAdvanced(full: seq<Cont>, t: seq<Cont>, st: Store)
    requires Covers(st, full)
    requires Holds(full, t, st)
    ensures Advanced(full, Capture(full), t, st)
  {
  }

  /** What a snapshot records of each continuation. */
  lemma CaptureNow(full: seq<Cont>)
    ensures forall c :: c in full ==> Capture(full)[c] == Seen(Dest(c).contents, RunCount(c))
  {
  }

  /** The effect `Invoke` promises, stated as the one-step effect. */
  lemma InvokeHolds(c: Cont, inner: Store)
    requires Covers(inner, [c])
    requires Dest(c).contents == Value(c)
    requires RunCount(c) == Inc(inner[c].count)
    ensures Holds([c], [c], inner)
  {
    assert multiset([c])[c] == 1;
    assert RunsOf([c], c) == 1;
  }

  /** Two snapshots of one state agree wherever they overlap. */
  lemma CaptureAgree(full: seq<Cont>, l: seq<Cont>)
    requires forall c :: c in l ==> c in full
    ensures forall c :: c in l ==> Capture(l)[c] == Capture(full)[c]
    ensures forall c, d :: c in full && d in l && Dest(c) == Dest(d) ==>
      Capture(full)[c].cell == Capture(full)[d].cell
    ensures forall c, d :: c in full && d in l && Head(c) == Head(d) ==>
      Capture(full)[c].count == Capture(full)[d].count
  {
    forall c, d | c in full && d in l && Head(c) == Head(d)
      ensures Capture(full)[c].count == Capture(full)[d].count
    {
      RecHead(c, d);
    }
  }

  /** Runs of a record add up over consecutive steps. */
  lemma RunsOfAppend(a: seq<Cont>, b: seq<Cont>, c: Cont)
    ensures RunsOf(a + b, c) == RunsOf(a, c) + RunsOf(b, c)
  {
    assert multiset(a + b) == multiset(a) + multiset(b);
  }

  /** Composition: the steps `l` applied to what the steps `d` produced. */
  lemma Compose(full: seq<Cont>, d: seq<Cont>, l: seq<Cont>, st: Store, mid: Store)
    requires Covers(st, full) && Covers(mid, full)
    requires Advanced(full, mid, d, st)
    requires Holds(full, l, mid)
    ensures Holds(full, d + l, st)
  {
    forall c | c in full
      ensures Dest(c).contents == Stored(d + l, Dest(c), st[c].cell)
      ensures RunCount(c) == Bumped(st[c].count, RunsOf(d + l, c))
    {
      StoredAppend(d, l, Dest(c), st[c].cell);
      RunsOfAppend(d, l, c);
      BumpedAdd(st[c].count, RunsOf(d, c), RunsOf(l, c));
    }
  }

  /** Widening the view: the steps `l` produced the state of their own
      continuations from `inner`; every other continuation of `full` whose
      cell or record `l` does not touch kept its value from `outer`, and the
      two snapshots agree where they overlap. Then `l` produced the state of
      all of `full` from `outer`. */
  lemma Widen(full: seq<Cont>, l: seq<Cont>, outer: Store, inner: Store)
    requires Covers(outer, full) && Covers(inner, l)
    requires forall c :: c in l ==> c in full && inner[c] == outer[c]
    requires forall c, d :: c in full && d in l && Dest(c) == Dest(d) ==> outer[c].cell == outer[d].cell
    requires forall c, d :: c in full && d in l && Head(c) == Head(d) ==> outer[c].count == outer[d].count
    requires Holds(l, l, inner)
    requires forall c :: c in full ==> Dest(c) in Objects(l) || Dest(c).contents == outer[c].cell
    requires forall c :: c in full ==> Rec(c) in Objects(l) || RunCount(c) == outer[c].count
    ensures Holds(full, l, outer)
  {
    forall c | c in full
      ensures Dest(c).contents == Stored(l, Dest(c), outer[c].cell)
      ensures RunCount(c) == Bumped(outer[c].count, RunsOf(l, c))
    {
      WidenCell(full, l, outer, inner, c);
      WidenCount(full, l, outer, inner, c);
    }
  }

  lemma WidenCell(full: seq<Cont>, l: seq<Cont>, outer: Store, inner: Store, c: Cont)
    requires Covers(outer, full) && Covers(inner, l) && c in full
    requires forall d :: d in l ==> d in full && inner[d] == outer[d]
    requires forall d :: d in l && Dest(c) == Dest(d) ==> outer[c].cell == outer[d].cell
    requires forall d :: d in l ==> Dest(d).contents == Stored(l, Dest(d), inner[d].cell)
    requires Dest(c) in Objects(l) || Dest(c).contents == outer[c].cell
    ensures Dest(c).contents == Stored(l, Dest(c), outer[c].cell)
  {
    if d :| d in l && Dest(d) == Dest(c) {
    } else {
      forall d | d in l ensures Rec(d) != Dest(c) as object { }
      StoredUntouched(l, Dest(c), outer[c].cell);
    }
  }

  lemma WidenCount(full: seq<Cont>, l: seq<Cont>, outer: Store, inner: Store, c: Cont)
    requires Covers(outer, full) && Covers(inner, l) && c in full
    requires forall d :: d in l ==> d in full && inner[d] == outer[d]
    requires forall d :: d in l && Head(c) == Head(d) ==> outer[c].count == outer[d].count
    requires forall d :: d in l ==> RunCount(d) == Bumped(inner[d].count, RunsOf(l, d))
    requires Rec(c) in Objects(l) || RunCount(c) == outer[c].count
    ensures RunCount(c) == Bumped(outer[c].count, RunsOf(l, c))
  {
    if d :| d in l && Head(d) == Head(c) {
      RunsOfHead(l, c, d);
      RecHead(c, d);
    } else {
      forall d | d in l ensures Rec(d) != Rec(c) && Dest(d) != Rec(c) { RecHead(c, d); }
      RunsOfNone(l, c);
    }
  }
}
