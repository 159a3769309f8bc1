/**
 * Properties of the clock operations, stated on the counter maps that
 * Clock.Increment and Clock.Merge are specified by.
 */
module ClockProperties {
  import opened VectorClock

  /** `a` is at least `b` on every key of `b`. A specification helper for
      stating what merge guarantees; the clock itself has no such operation. */
  ghost predicate Dominates(a: Vector, b: Vector)
  {
    b.Keys <= a.Keys && forall k :: k in b ==> a[k] >= b[k]
  }

  lemma DominatesTransitive(a: Vector, b: Vector, c: Vector)
    requires Dominates(a, b) && Dominates(b, c)
    ensures Dominates(a, c)
  {
  }

  /** After a successful merge the clock dominates both its old value and the peer. */
  lemma MergedDominatesBoth(v: Vector, p: Vector)
    requires v.Keys == p.Keys
    ensures Dominates(Merged(v, p), v) && Dominates(Merged(v, p), p)
  {
  }

  /** ... and it is the least such map: anything above both is above the merge. */
  lemma MergedIsLeast(v: Vector, p: Vector, w: Vector)
    requires v.Keys == p.Keys
    requires Dominates(w, v) && Dominates(w, p)
    ensures Dominates(w, Merged(v, p))
  {
  }

  /** Merging with an identical copy is a no-op. */
  lemma MergedIdempotent(v: Vector)
    ensures Merged(v, v) == v
  {
  }

  /** The order of the two operands does not matter to the merged counters. */
  lemma MergedCommutative(v: Vector, p: Vector)
    requires v.Keys == p.Keys
    ensures Merged(v, p) == Merged(p, v)
  {
  }

  lemma MergedAssociative(a: Vector, b: Vector, c: Vector)
    requires a.Keys == b.Keys == c.Keys
    ensures Merged(Merged(a, b), c) == Merged(a, Merged(b, c))
  {
  }

  /** Merging the same peer a second time changes nothing. */
  lemma MergedAbsorbs(v: Vector, p: Vector)
    requires v.Keys == p.Keys
    ensures Merged(Merged(v, p), p) == Merged(v, p)
  {
  }

  /** Every outcome of Clock.Merge, including a key mismatch part-way
      through, lies between the old counters and the elementwise maximum:
      no counter drops, a shared key rises at most to the larger of the two,
      and a key the peer lacks keeps its counter. When the peer holds every
      key, the outcome is bounded by the full merge. */
  lemma RaisedBetween(v: Vector, p: Vector, done: set<string>)
    requires done <= p.Keys
    ensures Dominates(Raised(v, p, done), v)
    ensures forall k :: k in v && k in p ==> Raised(v, p, done)[k] <= Max(v[k], p[k])
    ensures forall k :: k in v && k !in p ==> Raised(v, p, done)[k] == v[k]
    ensures v.Keys <= p.Keys ==> Dominates(Merged(v, p), Raised(v, p, done))
  {
  }

  /** Increment raises the owner's counter strictly and leaves the key set alone. */
  lemma IncrementedRaisesOwner(v: Vector, owner: string)
    requires owner in v
    ensures Dominates(Incremented(v, owner), v)
    ensures Incremented(v, owner).Keys == v.Keys
    ensures Incremented(v, owner)[owner] == v[owner] + 1
  {
  }

  /** One call on a clock: an increment, or a merge with the peer counters
      `peer` that raised the keys `done` before it returned (all keys on
      success, none on a length mismatch, some on a key mismatch). */
  datatype Call = Increment | Merge(peer: Vector, done: set<string>)

  /** The owner's counters after one call, as Clock.Increment and
      Clock.Merge specify them. */
  function Step(owner: string, v: Vector, c: Call): (r: Vector)
    requires owner in v
    ensures r.Keys == v.Keys
  {
    match c
    case Increment => Incremented(v, owner)
    case Merge(p, d) => Raised(v, p, d * p.Keys)
  }

  /** The owner's counters after a sequence of calls. */
  function Run(owner: string, v: Vector, calls: seq<Call>): Vector
    requires owner in v
    decreases |calls|
  {
    if calls == [] then v else Run(owner, Step(owner, v, calls[0]), calls[1..])
  }

  /** Over any sequence of increments and merges, successful or not, the key
      set stays fixed and no counter ever decreases. */
  lemma {:induction false} RunNeverDecreases(owner: string, v: Vector, calls: seq<Call>)
    requires owner in v
    ensures Run(owner, v, calls).Keys == v.Keys
    ensures Dominates(Run(owner, v, calls), v)
    decreases |calls|
  {
    if calls != [] {
      var w := Step(owner, v, calls[0]);
      assert Dominates(w, v) by {
        match calls[0]
        case Increment => IncrementedRaisesOwner(v, owner);
        case Merge(p, d) =>
      }
      RunNeverDecreases(owner, w, calls[1..]);
      DominatesTransitive(Run(owner, w, calls[1..]), w, v);
    }
  }

  /** A run extended by one call is one more step after the run. */
  lemma {:induction false} RunAppend(owner: string, v: Vector, calls: seq<Call>, c: Call)
    requires owner in v
    ensures owner in Run(owner, v, calls)
    ensures Run(owner, v, calls + [c]) == Step(owner, Run(owner, v, calls), c)
    decreases |calls|
  {
    if calls != [] {
      assert (calls + [c])[1..] == calls[1..] + [c];
      RunAppend(owner, Step(owner, v, calls[0]), calls[1..], c);
    }
  }

  /** A request made to a clock: an increment, or a merge with a peer clock
      (possibly the clock itself). */
  datatype Action = Tick | MergeWith(peer: Clock)

  /** Performs `actions` on `vc` in order, with the real Clock methods. The
      ghost `calls` records what each call did, so the clock's final counters
      are `Run` of the recorded calls; hence the key set is kept and no
      counter has decreased. */
  method Perform(vc: Clock, actions: seq<Action>) returns (ghost calls: seq<Call>)
    requires vc.Valid()
    modifies vc`vector
    ensures |calls| == |actions|
    ensures forall i :: 0 <= i < |actions| ==> (actions[i].Tick? <==> calls[i].Increment?)
    ensures vc.vector == Run(vc.myNode, old(vc.vector), calls)
    ensures vc.Valid() && vc.vector.Keys == old(vc.vector).Keys
    ensures Dominates(vc.vector, old(vc.vector))
  {
    ghost var v0 := vc.vector;
    calls := [];
    for i := 0 to |actions|
      invariant |calls| == i
      invariant forall j :: 0 <= j < i ==> (actions[j].Tick? <==> calls[j].Increment?)
      invariant vc.vector == Run(vc.myNode, v0, calls)
    {
      RunNeverDecreases(vc.myNode, v0, calls);
      match actions[i]
      case Tick =>
        RunAppend(vc.myNode, v0, calls, Increment);
        vc.Increment();
        calls := calls + [Increment];
      case MergeWith(peer) =>
        ghost var p := peer.vector;
        var err, done := vc.Merge(peer);
        assert done * p.Keys == done;
        RunAppend(vc.myNode, v0, calls, Merge(p, done));
        calls := calls + [Merge(p, done)];
    }
    RunNeverDecreases(vc.myNode, v0, calls);
  }
}
