# Vector clock: a verified Dafny model

This project models the vector clock in `vector_clock.go`. A clock belongs to
one node of a fixed node set. It holds the owner's identifier (`myNode`) and a
map from every node identifier to an integer counter (`vector`). It has three
operations and one helper:

- `newVectorClock(myIndex, nodes)` builds the clock of `nodes[myIndex]` with a
  zero counter for every listed node. An index outside `[0, len(nodes))` is an
  error.
- `increment()` adds one to the owner's counter.
- `merge(peer)` takes the elementwise maximum with a peer clock, in place. It
  first checks that the two maps have the same size. It then walks the keys of
  `self` in map order. A key that the peer lacks stops the walk with an error.
- `max(a, b)` returns the larger of two integers.

Files:

- `vector_clock.dfy`, module `VectorClock`. This is the model itself. `Clock` is
  a class with the fields `myNode` and `vector`. `Increment` and `Merge` are
  methods that update `vector` in place. `NewVectorClock` fills the map of a
  fresh clock with a loop over the node list. Each method's contract refers to
  a function on counter maps: `Incremented`, `Raised` (the keys the merge loop
  has handled so far) and `Merged` (the full elementwise maximum).
- `clock_properties.dfy`, module `ClockProperties`. Algebraic facts about merge
  (dominance, least upper bound, idempotence, commutativity, associativity,
  absorption). It also proves that, for a clock that holds its owner's key, no
  sequence of increments and merges, failed or not, changes the key set or
  lowers a counter. `Perform` applies such a sequence with the real `Clock`
  methods and ties the result to that proof. `Dominates` (every counter at
  least as large) exists only to state these facts. The Go code has no
  comparison operation.
- `clock_examples.dfy`, module `ClockExamples`. The sequential test scenarios
  `TestMerge`, `TestIncrement`, `TestNewVectorClock`, `TestMax` and
  `TestFullTwo`, plus a key-mismatch scenario and merges with itself and with a
  copy. Their assertions are checked from the operations' contracts alone.
  Node names are parameters in the longer scenarios, and the scenario methods
  pass in the literal names.

Points where a reader of the code might expect otherwise:

- **Merge is not atomic.** In `vector_clock.go:26-31` the key check is
  interleaved with the writes, so a key mismatch can be reported after some
  shared keys were already raised. The ghost out-parameter `done` of
  `Clock.Merge` names the keys raised before the call returned. Whatever the
  outcome, the new counters are `Raised(old counters, peer, done)`. Only a
  length mismatch is atomic (`done == {}`). `KeyMismatchCalls` shows a key
  mismatch where either outcome for the shared key `a` is possible.
- **Counters are Go `int`, not non-negative.** The tests write counters
  directly. The model uses `int` and does not enforce a lower bound.
- **A missing owner key.** `vc.vector[vc.myNode]++` on a missing key stores 1,
  because Go reads a missing key as 0. `Clock.Increment` follows that and has
  no precondition. A clock built by `NewVectorClock` always holds its owner's
  key (`Valid()`), `Increment` and `Merge` keep it, and `Perform` requires it.
- **Merging a clock with itself.** The model allows `peer == this`, because Go
  allows `vc.merge(vc)`. The model proves that the peer's counters are
  unchanged in that case as well.

The test at `vector_clock_test.go:26` joins its three checks with `&&`, so it
fails only when all three counters are wrong. `MergeScenarioCalls` asserts each
of the three counters separately.

## Model

| member | source | states |
|---|---|---|
| `VectorClock.Max` | vector_clock.go:67-72 | the result is at least `a` and at least `b`, and it equals one of them |
| `VectorClock.Incremented` | vector_clock.go:40-43 | the owner's counter becomes its old value (0 if absent) plus one; every other entry is unchanged; the key set gains at most the owner |
| `VectorClock.Clock.Increment` | vector_clock.go:40-43 | the counters become `Incremented(old counters, myNode)`; afterwards the owner's key is present |
| `VectorClock.Raised` | vector_clock.go:26-31 | the merge loop after handling the keys `done`: it keeps the key set; no counter decreases; keys outside `done` are unchanged; each key in `done` is at least the peer's counter and equals either the old value or the peer's |
| `VectorClock.Merged` | vector_clock.go:26-33 | the full merge keeps the key set; each counter is at least both inputs and equals one of them |
| `VectorClock.RaisedAllIsMerged` | vector_clock.go:26-33 | once the loop has handled every key, the result is the full merge |
| `VectorClock.RaisedNone` | vector_clock.go:22-25 | with no key handled, the counters are unchanged, as on the length-mismatch return |
| `VectorClock.RaisedStep` | vector_clock.go:31 | the write for one more key extends the handled set by that key |
| `VectorClock.RaisedSelf` | vector_clock.go:26-31 | merging a map with itself changes nothing, whichever keys have been handled |
| `VectorClock.SameSizeSubsetEqual` | vector_clock.go:22-30 | equal sizes plus "every key of self is in the peer" means equal key sets, so the two guards together test key-set equality |
| `VectorClock.Clock.Merge` | vector_clock.go:21-34 | the peer is never modified, even when it is `self`; the counters become `Raised(old, peer, done)` in every outcome; the owner's key stays present; success holds exactly when the key sets are equal, and then the counters are `Merged(old, peer)`; `LengthMismatch` carries both sizes, is returned exactly when the sizes differ, and changes nothing; `KeyMismatch` names a key of `self` that the peer lacks; no other error occurs |
| `VectorClock.Clock.constructor` | vector_clock.go:59 | the struct literal `vectorClock{nodes[myIndex], vector}`: the owner and the map as given |
| `VectorClock.NewVectorClock` | vector_clock.go:53-64 | the result is an error exactly when `myIndex >= len(nodes)` or `myIndex < 0`, and the error carries `len(nodes)` and `myIndex`; on success the clock is fresh, its owner is `nodes[myIndex]` and present, its key set is the set of listed nodes, and every counter is 0 |
| `ClockProperties.MergedDominatesBoth` | vector_clock.go:31 | after a successful merge the counters dominate both the old counters and the peer's |
| `ClockProperties.MergedIsLeast` | vector_clock.go:31 | any map that dominates both inputs dominates their merge |
| `ClockProperties.MergedIdempotent` | vector_clock.go:31 | merging a map with an identical one gives it back unchanged |
| `ClockProperties.MergedCommutative` | vector_clock.go:31 | over equal key sets the merge does not depend on operand order |
| `ClockProperties.MergedAssociative` | vector_clock.go:31 | over equal key sets, merges can be regrouped |
| `ClockProperties.MergedAbsorbs` | vector_clock.go:31 | merging the same peer a second time changes nothing |
| `ClockProperties.RaisedBetween` | vector_clock.go:26-31 | every outcome of a merge, including a key mismatch part-way through: no counter decreases, a key shared with the peer rises at most to the larger of the two counters, a key the peer lacks keeps its counter, and when the peer holds every key the outcome is below the full merge |
| `ClockProperties.IncrementedRaisesOwner` | vector_clock.go:40-43 | when the owner is present, increment keeps the key set, dominates the old counters and raises the owner's counter by exactly one |
| `ClockProperties.Step` | vector_clock.go:21-43 | one increment or merge call, successful or not, keeps the key set |
| `ClockProperties.RunNeverDecreases` | vector_clock.go:21-43 | for a clock holding its owner's key, over any sequence of increment and merge calls, successful or not, the key set stays fixed and no counter ever decreases |
| `ClockProperties.RunAppend` | vector_clock.go:21-43 | a sequence of calls followed by one more call is that call applied to the sequence's result |
| `ClockProperties.Perform` | vector_clock.go:21-43 | applying increments and merges to a clock with `Clock.Increment` and `Clock.Merge`, with peers that may include the clock itself, leaves counters equal to `Run` of the recorded calls; the owner's key stays present, the key set is kept and no counter decreases |
| `ClockExamples.MergeScenarioCalls` | vector_clock_test.go:14-32 | counters 6,3,19 merged with 8,7,4 give 8,7,19; a merge with a one-node clock then fails with `LengthMismatch(3, 1)` and changes nothing |
| `ClockExamples.KeyMismatchCalls` | vector_clock.go:26-30 | clocks over `a,b,c` and `a,b,x` fail with `KeyMismatch(c)`; `b` and `c` keep their counters, and `a` may already have been raised |
| `ClockExamples.MergeWithItself` | vector_clock.go:21-34 | `vc.Merge(vc)` succeeds and leaves the counters unchanged |
| `ClockExamples.MergeWithCopy` | vector_clock.go:21-34 | merging with a separate copy succeeds and leaves both clocks unchanged |
| `ClockExamples.FullTwoRounds` | vector_clock_test.go:178-198 | the eighteen calls of the three-process scenario end with P0 at 7,1,2, P1 at 6,3,2 and P2 at 4,1,3 |

`IncrementScenario` (vector_clock_test.go:35-50, three increments give
3,0,0), `NewVectorClockScenario` (vector_clock_test.go:52-68, index 3 of three
nodes is rejected) and `MaxScenario` (vector_clock_test.go:71-77) are checked
scenarios without a contract of their own.

## Left out

- `TestFullOne` (vector_clock_test.go:79-171): it runs three goroutines timed
  by `time.Sleep`, sharing maps without locks. Its outcome depends on
  scheduling, and the model has no concurrency.
- The text of the `fmt.Errorf` messages. Errors are datatype values that carry
  the lengths, the index or the missing key.
- Increment, Max: Go's 64-bit `int` wrap-around is not modelled. Counters are
  unbounded integers.
- Go struct copies share one map, because clocks are passed by value. In the
  model the map is a value held by one `Clock` object. Two distinct clocks never
  share counters; the only aliasing modelled is `peer == self`.
- On an invalid index Go also returns a zero-valued clock with a nil map. The
  model returns only the error.
- Go's randomised map iteration order is modelled as an arbitrary choice of the
  next key. The model does not pick any particular order.
- A happens-before or concurrency comparison does not exist in the code, so none
  is modelled. `Dominates` is only a specification helper.
