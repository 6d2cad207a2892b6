# copse: continuation steps, round-robin laps and context backends

This project models two parts of copse, a C library for continuation-passing
concurrency, and proves properties of the models.

**Continuations and the round-robin scheduler** (`cps.dfy`, `round_robin.dfy`,
`cps_tests.dfy`). A continuation (`struct cps_cont`) is embedded in a record and
names a resume function. The resume function does its work and then either
returns to the continuation `next` (`cps_return`) or tail-chains into a
target continuation with `next` passed on (`cps_resume`). The two test records
of `tests/test-cps.c` are modelled as classes:

- `save_int` stores one value into a cell and counts its run.
- `save_int2` stores two values in two steps: `step1` tail-chains into
  `step2`, which returns. Both steps share one run counter.

A continuation reference is the datatype `Cont`, whose tag is the resume
function and whose payload is the enclosing record.

- `Cps.Trampoline` is the loop behind `cps_run` and a top-level
  `cps_resume`. It steps until the chains have returned to the terminal
  sentinel.
- `RoundRobin.Scheduler` is `struct cps_rr`: a FIFO queue of live
  continuations. `RunOneLap` invokes each entry present at the start of the
  lap exactly once. The next lap's queue holds the targets the entries
  tail-chained into. `Drain` runs laps until the queue is empty.

The effect of running steps is stated against a snapshot of cells and run
counters (`Capture`). `Holds(full, t, st)` says that every cell and counter
of the continuations `full` holds what the steps `t` leave, starting from
the snapshot `st`:

- a cell holds the value of the last step that writes it (`Stored`);
- a counter has grown by the number of steps of its record (`RunsOf`), with
  `unsigned int` wrap-around (`Bumped`).

The six scenarios of `tests/test-cps.c` are methods in `CpsTests`. Their
postconditions are the test's expectations, proved from the operations'
contracts.

**Context backends** (`context.dfy`). `include/copse/context.h` is a
preprocessor case table. It maps the platform macros to a binary format and
the System V ABI, then maps format and architecture to one of four backends,
each with its own register layout. Any other combination is a build error.
The `cps_context_new` macro turns a stack buffer's start into the initial
stack pointer: the end of the buffer when stacks grow down. The macros are
modelled as a `Target` of booleans and the table as the function `Select`,
whose error is the `#error` text.

The C sources of `cps_run`, `cps_resume`, `cps_return` and the scheduler are
not part of this model. `Cps.Run`, `Cps.Resume` and `RoundRobin.Scheduler`
model these operations from the library's documented design, which fixes:

- the trampoline loop;
- a top-level `cps_resume(next, target)` runs `target`'s chain, then `next`'s;
- a lap snapshots the queue, and tail-chain targets are queued for the
  following lap.

The scenario methods in `CpsTests` prove that these contracts give the
outcomes tests/test-cps.c asserts.

## Model

| member | source | states |
|---|---|---|
| Cps.Cell.constructor | tests/test-cps.c:110 | an `unsigned int result = 0` variable: a fresh cell holding the given value |
| Cps.Inc | tests/test-cps.c:40 | `run_count++` on an `unsigned int`: one more, or 0 after the largest value |
| Cps.SaveInt.constructor | tests/test-cps.c:44 | `SAVE_INT_INIT(d, v)`: the cell is `d`, the value is `v` and the run count is 0 |
| Cps.SaveInt.Resume | tests/test-cps.c:35-42 | the cell holds the value, the counter grew by one (wrapping), the step returns to `next`, and only the record and its cell change |
| Cps.SaveInt2.constructor | tests/test-cps.c:84-85 | `SAVE_INT2_INIT(d1, v1, d2, v2)`: both cells and values as given, run count 0 |
| Cps.SaveInt2.Step1 | tests/test-cps.c:66-73 | writes only `dest1` with `value1`, bumps the counter, and tail-chains into this record's `step2` |
| Cps.SaveInt2.Step2 | tests/test-cps.c:75-82 | writes only `dest2` with `value2`, bumps the counter, and returns |
| Cps.Invoke | tests/test-cps.c:35-82 | calling a reference's resume function: its cell gets its value, its record's counter grows by one, and the signal is a return or a tail-chain into the step after it |
| Cps.Step | tests/test-cps.c:35-82 | one invocation changes its own cell and counter and no other cell or counter of the continuations around it |
| Cps.Trampoline | tests/test-cps.c:107-127 | the loop returns 0 and leaves every cell and counter of the chain of `c` and then of `next` as running all their steps in order leaves them |
| Cps.Run | tests/test-cps.c:107-114 | `cps_run(c)` returns 0 after performing exactly the steps of `c`'s chain |
| Cps.Resume | tests/test-cps.c:117-127 | `cps_resume(next, target)` returns 0 after performing `target`'s chain and then `next`'s |
| Cps.StoredSoleWriter | tests/test-cps.c:46-51 | a cell written by only one step holds that step's value after any sequence containing it |
| Cps.Outcome | tests/test-cps.c:46-51 | after a run, a step that is its cell's only writer has stored its value, and its counter grew by the number of steps of its record that ran |
| RoundRobin.Scheduler.constructor | tests/test-cps.c:139 | `cps_rr_new`: an empty queue |
| RoundRobin.Scheduler.Add | tests/test-cps.c:140-142 | `cps_rr_add` appends at the tail of the queue and keeps every entry distinct |
| RoundRobin.Scheduler.RunOneLap | tests/test-cps.c:213-220 | returns 0; every entry present at the start runs exactly once, in queue order; the new queue is the entries' tail-chain targets in the same order; entries queued during the lap do not run in it |
| RoundRobin.Scheduler.Drain | tests/test-cps.c:143-146 | returns 0 with an empty queue, having performed lap after lap the steps of `DrainTrace` and changed only the queued chains' cells and records |
| RoundRobin.Scheduler.LapOfDrain | tests/test-cps.c:143 | one lap of a drain advances the drain's trace by the lap's entries and leaves the rest of the drain's cells and counters alone |
| RoundRobin.LapSplit | tests/test-cps.c:197-222 | a lap advances every live chain by exactly one step: the chains of the next queue are those of this queue without their first steps |
| RoundRobin.DrainPermutation | tests/test-cps.c:143-172 | the steps of a drain are a permutation of the steps of the queued chains: every step runs exactly once |
| RoundRobin.DrainSameSteps | tests/test-cps.c:143-172 | a drain performs a step exactly when the queued chains contain it, and runs each record as often as the chains do |
| RoundRobin.DrainObjects | tests/test-cps.c:143-172 | a drain writes exactly the cells and records of the queued chains |
| RoundRobin.RunsInChains | tests/test-cps.c:151-172 | with one entry per record, the chains of the queue run an entry's record once per step of its chain |
| RoundRobin.DrainCompletes | tests/test-cps.c:130-195 | after a drain of a queue with one entry per record and one writer per cell, every cell of every chain holds its value and every counter grew by the chain's length |
| RoundRobin.SuccessorsMember | tests/test-cps.c:213-217 | a continuation is queued for the next lap if and only if an entry of this lap tail-chains into it |
| RoundRobin.SuccessorsDistinct | tests/test-cps.c:213-217 | a queue without duplicates stays without duplicates from lap to lap |
| RoundRobin.SuccessorsInOrder | tests/test-cps.c:210-217 | when every entry tail-chains, the next queue has the same length and its `i`-th entry is the target of the `i`-th entry |
| RoundRobin.SuccessorsNone | tests/test-cps.c:140-143 | when every entry returns, one lap empties the queue |
| RoundRobin.DrainReturning | tests/test-cps.c:130-148 | a queue of one-step chains drains in a single lap, in queue order |
| RoundRobin.DrainTwoSteps | tests/test-cps.c:151-172 | a queue of two-step chains drains in two laps: the entries, then their targets |
| CpsTests.TestCps01 | tests/test-cps.c:107-114 | `cps_run` on one save_int returns 0, stores 10 and leaves run count 1 |
| CpsTests.TestCps02 | tests/test-cps.c:117-127 | `cps_resume(&i1, &i2)` returns 0; both cells hold 10 and 20 and both run counts are 1 |
| CpsTests.ResumeSaveInts | tests/test-cps.c:124-126 | `cps_resume` on two save_int records on different cells stores both values and runs each once |
| CpsTests.TestCps03 | tests/test-cps.c:130-148 | draining three save_int records returns 0, stores 10, 20, 30, and every run count is 1 |
| CpsTests.DrainSaveInts | tests/test-cps.c:139-146 | a drain of three save_int records on different cells stores each value and runs each record once |
| CpsTests.TestCps04 | tests/test-cps.c:151-172 | draining three save_int2 records returns 0, stores 10, 15, 20, 25, 30, 35, and every run count is 2 |
| CpsTests.DrainSaveInt2s | tests/test-cps.c:163-170 | a drain of three save_int2 records on six different cells stores every value and runs each record twice |
| CpsTests.TestCps05 | tests/test-cps.c:175-195 | draining save_int, save_int2, save_int returns 0, stores 10, 20, 25, 30, and leaves run counts 1, 2, 1 |
| CpsTests.DrainMixed | tests/test-cps.c:185-192 | a drain of the mixed queue stores every value and runs each record once per step |
| CpsTests.TestCps06 | tests/test-cps.c:197-222 | after one lap the first cells hold 10, 20, 30, the second cells still hold 0 and every run count is 1; after the second lap all six values are stored and every run count is 2; both laps return 0 |
| CpsTests.FirstLapOf | tests/test-cps.c:213-216 | the first lap over three save_int2 records stores each first value, runs each record once, and queues the three second steps in order |
| CpsTests.SecondLapOf | tests/test-cps.c:217-220 | the second lap stores each second value, runs each record once more, and empties the queue |
| CpsTests.NewSaveInts | tests/test-cps.c:133-142 | three fresh save_int records on fresh zeroed cells, queued in order in a fresh scheduler |
| CpsTests.NewSaveInt2s | tests/test-cps.c:154-166 | three fresh save_int2 records on six fresh zeroed cells, queued by their first steps |
| CpsTests.NewMixed | tests/test-cps.c:178-188 | a save_int, a save_int2 and a save_int on fresh zeroed cells, queued in that order |
| CpsTests.SaveInt2Drain | tests/test-cps.c:164-167 | the drain of three save_int2 records performs the three first steps, then the three second steps |
| CpsTests.MixedDrain | tests/test-cps.c:186-189 | the drain of the mixed queue performs the three entries, then the save_int2's second step |
| CpsTests.RanSaveInts | tests/test-cps.c:144-146 | three save_int steps on different cells: each cell holds its value, each counter grew by one |
| CpsTests.RanSaveInt2s | tests/test-cps.c:168-170 | both steps of three save_int2 records on six different cells: every cell holds its value, every counter grew by two |
| CpsTests.RanMixed | tests/test-cps.c:190-192 | the mixed drain: every cell holds its value; the save_int counters grew by one and the save_int2 counter by two |
| CpsTests.RanFirstSteps | tests/test-cps.c:214-216 | the first steps of three save_int2 records: each first cell holds its value, each counter grew by one |
| CpsTests.RanSecondSteps | tests/test-cps.c:218-220 | the second steps: each second cell holds its value, each counter grew by one more |
| Context.Detect | include/copse/context.h:21-29 | `__linux__` gives ELF and System V; otherwise `__APPLE__` gives Mach-O and System V; otherwise neither is defined |
| Context.Select | include/copse/context.h:53-152 | the `#if`/`#elif` table: a backend exactly when the platform is Linux or Apple and the architecture is x64 or x86, x64 tested before x86, ELF exactly on Linux, one of the four declared backends; otherwise `Err` with the `#error` text |
| Context.NewWith | include/copse/context.h:157-163 | the `cps_context_new` macro for one backend: size and entry function pass through, and the stack region read back from the normalised pointer is the caller's buffer `[sp, sp + size)` |
| Context.New | include/copse/context.h:150-163 | `cps_context_new` exists exactly where a backend is selected, otherwise it fails with the `#error` text; size and entry function pass through; the stack region it describes is the caller's buffer `[sp, sp + size)` |
| Context.NewWithRegion | include/copse/context.h:155-163 | a downward-growing stack gets `sp + size`, any other gets `sp` unchanged; size and entry function are unchanged in both branches |
| Context.DetectConsistent | include/copse/context.h:21-29 | Linux sets ELF and System V, Apple sets Mach-O and System V, any other platform sets neither; never both formats |
| Context.SelectExactlyFour | include/copse/context.h:53-152 | a backend is selected if and only if the target has a known format and a known architecture, and it is the one for that format and architecture; otherwise the error is "Don't know how to implement contexts on this platform" |
| Context.SelectDistinct | include/copse/context.h:53-147 | two targets get the same backend if and only if they agree on format and architecture: the four backends are distinct |
| Context.SupportedGrowsDown | include/copse/context.h:53-159 | every supported backend declares downward stack growth, so every supported target starts its stack at `sp + size` |
| Context.BackendLayout | include/copse/context.h:62-142 | 64-bit backends have 8 general-register slots of 64 bits, 32-bit backends 6 of 32 bits, and every backend has two 32-bit floating-point slots |
| Context.ContextOffsets | include/copse/context.h:62-142 | the stack descriptor and floating-point area sit at byte offsets 64 and 80 on x64 (88 bytes in all) and 24 and 32 on x86 (40 bytes in all) |

## Left out

- `cps_context_jump` and `cps_context_new_from_sp` (include/copse/context.h:41-46) are per-architecture assembly. The model keeps only the arguments the macro passes.
- Floating-point state (`preserve_fpu`, `struct cps_fp`) appears only as slot counts and widths, with no semantics.
- The trampoline's guarantee of bounded native stack depth is not observable in Dafny. The trampoline is a loop.
- `cps_rr_free` and all memory management. The scheduler is an object with no deallocation.
- Error codes: no step in the tests fails, so every step, lap and drain returns 0. The propagation of a non-zero code and the partial-failure policy of a lap are not modelled.
- Cps.Step: does not model a step that fails, because no resume function of the tests returns a non-zero code.
- RoundRobin.Scheduler.RunOneLap: states `rc == 0` only, because the first-error rule of a lap needs failing steps, which the tests never produce.
- RoundRobin.Scheduler.Drain: states `rc == 0` only, for the same reason. It also does not model stopping early on an error.
- The Check unit-test runner (`test_suite`, `main`, `fail_unless_equal`, tests/test-cps.c:230-260) and `helpers.h`: the test expectations are postconditions instead.
- Pointer arithmetic on `void *`: addresses are natural numbers, so an `sp + size` that overflows the address space is not modelled.
- `cps_container_of` pointer arithmetic: a reference carries its record directly.
- The C sources of the continuation primitives and of the round-robin scheduler are not part of this model. The trampoline and lap rules follow the library's design description; tests/test-cps.c checks their outcomes.
- RoundRobin.DrainCompletes: the scheduler keeps its queue free of duplicates. The lemma asks for one entry per record (`DistinctHeads`) and one writer per cell (`SoleWriters`), which every scenario of the tests meets. With shared cells, the last write wins (`Stored`), and only the general `Holds` statement applies.
