/**
 * The sequential scenarios of the repository's tests, as methods whose
 * assertions the verifier checks from the operations' contracts alone.
 */
module ClockExamples {
  import opened VectorClock
  import ClockProperties

  /** A counter map over three nodes, written out. */
  function Three(a: string, b: string, c: string, x: int, y: int, z: int): Vector
  {
    map[a := x, b := y, c := z]
  }

  /** A zero counter map built from three distinct nodes is the written-out one. */
  lemma ZeroThree(v: Vector, a: string, b: string, c: string)
    requires a != b && b != c && a != c
    requires v.Keys == NodeSet([a, b, c])
    requires forall k :: k in v ==> v[k] == 0
    ensures v == Three(a, b, c, 0, 0, 0)
  {
  }

  /** Merging two written-out maps over the same three nodes. */
  lemma MergedThree(a: string, b: string, c: string, x1: int, y1: int, z1: int, x2: int, y2: int, z2: int)
    requires a != b && b != c && a != c
    ensures Merged(Three(a, b, c, x1, y1, z1), Three(a, b, c, x2, y2, z2))
            == Three(a, b, c, Max(x1, x2), Max(y1, y2), Max(z1, z2))
  {
  }

  /** Incrementing the counter of `owner`, one of the three nodes. */
  lemma IncrementedThree(a: string, b: string, c: string, x: int, y: int, z: int, owner: string)
    requires a != b && b != c && a != c
    requires owner == a || owner == b || owner == c
    ensures Incremented(Three(a, b, c, x, y, z), owner)
            == Three(a, b, c, if owner == a then x + 1 else x, if owner == b then y + 1 else y,
                     if owner == c then z + 1 else z)
  {
  }

  /** Writing one counter of a written-out map. */
  lemma WrittenThree(a: string, b: string, c: string, x: int, y: int, z: int, n: int)
    requires a != b && b != c && a != c
    ensures Three(a, b, c, x, y, z)[a := n] == Three(a, b, c, n, y, z)
    ensures Three(a, b, c, x, y, z)[b := n] == Three(a, b, c, x, n, z)
    ensures Three(a, b, c, x, y, z)[c := n] == Three(a, b, c, x, y, n)
  {
  }

  /** The three clocks of a scenario over nodes `a`, `b`, `c`, each owned by
      its own node and all zero. */
  method NewThree(a: string, b: string, c: string) returns (vc1: Clock, vc2: Clock, vc3: Clock)
    requires a != b && b != c && a != c
    ensures fresh(vc1) && fresh(vc2) && fresh(vc3)
    ensures vc1 != vc2 && vc2 != vc3 && vc1 != vc3
    ensures vc1.myNode == a && vc2.myNode == b && vc3.myNode == c
    ensures vc1.vector == vc2.vector == vc3.vector == Three(a, b, c, 0, 0, 0)
  {
    var nodes := [a, b, c];
    var r1 := NewVectorClock(0, nodes);
    var r2 := NewVectorClock(1, nodes);
    var r3 := NewVectorClock(2, nodes);
    vc1, vc2, vc3 := r1.value, r2.value, r3.value;
    ZeroThree(vc1.vector, a, b, c);
    ZeroThree(vc2.vector, a, b, c);
    ZeroThree(vc3.vector, a, b, c);
  }

  /** A written-out map over three distinct nodes has three entries. */
  lemma ThreeSize(a: string, b: string, c: string, x: int, y: int, z: int)
    requires a != b && b != c && a != c
    ensures |Three(a, b, c, x, y, z)| == 3
  {
  }

  /** Merge of two clocks over the same nodes, then a merge with a clock over
      a single node, which fails on the length check and changes nothing. */
  method MergeScenario()
  {
    var vc1, vc2, _ := NewThree("node1", "node2", "node3");
    var rBad := NewVectorClock(0, ["node_random"]);
    var vcBad := rBad.value;
    assert NodeSet(["node_random"]) == {"node_random"};
    MergeScenarioCalls(vc1, vc2, vcBad, "node1", "node2", "node3");
  }

  /** The calls of the merge scenario over nodes `a`, `b`, `c`. */
  method MergeScenarioCalls(vc1: Clock, vc2: Clock, vcBad: Clock, a: string, b: string, c: string)
    requires a != b && b != c && a != c
    requires vc1 != vc2 && vc1 != vcBad
    requires vc1.vector == vc2.vector == Three(a, b, c, 0, 0, 0)
    requires |vcBad.vector| == 1
    modifies vc1`vector, vc2`vector
    ensures vc1.vector == Three(a, b, c, 8, 7, 19)
  {
    MergeScenarioWrites(vc1, vc2, a, b, c);
    Merged3(vc1, vc2, a, b, c, 6, 3, 19, 8, 7, 4);
    assert vc1.vector[a] == 8 && vc1.vector[b] == 7 && vc1.vector[c] == 19;
    ThreeSize(a, b, c, 8, 7, 19);
    var err, done := vc1.Merge(vcBad);
    assert err == Some(LengthMismatch(3, 1));
  }

  /** The test's direct writes of the counters of both clocks. */
  method MergeScenarioWrites(vc1: Clock, vc2: Clock, a: string, b: string, c: string)
    requires a != b && b != c && a != c
    requires vc1 != vc2
    requires vc1.vector == vc2.vector == Three(a, b, c, 0, 0, 0)
    modifies vc1`vector, vc2`vector
    ensures vc1.vector == Three(a, b, c, 6, 3, 19)
    ensures vc2.vector == Three(a, b, c, 8, 7, 4)
  {
    WrittenThree(a, b, c, 0, 0, 0, 6);
    vc1.vector := vc1.vector[a := 6];
    WrittenThree(a, b, c, 6, 0, 0, 3);
    vc1.vector := vc1.vector[b := 3];
    WrittenThree(a, b, c, 6, 3, 0, 19);
    vc1.vector := vc1.vector[c := 19];
    WrittenThree(a, b, c, 0, 0, 0, 8);
    vc2.vector := vc2.vector[a := 8];
    WrittenThree(a, b, c, 8, 0, 0, 7);
    vc2.vector := vc2.vector[b := 7];
    WrittenThree(a, b, c, 8, 7, 0, 4);
    vc2.vector := vc2.vector[c := 4];
  }

  /** Two clocks of the same size over different nodes: the merge fails on
      the one key of self that the peer lacks, after possibly raising some
      of the shared keys first. */
  method KeyMismatchScenario()
  {
    var rA := NewVectorClock(0, ["a", "b", "c"]);
    var rB := NewVectorClock(0, ["a", "b", "x"]);
    KeyMismatchCalls(rA.value, rB.value, "a", "b", "c", "x");
  }

  method KeyMismatchCalls(vcA: Clock, vcB: Clock, a: string, b: string, c: string, x: string)
    requires a != b && b != c && a != c && x != a && x != b && x != c
    requires vcA != vcB
    modifies vcA`vector, vcB`vector
    ensures vcA.vector.Keys == {a, b, c}
    ensures vcA.vector[b] == 1 && vcA.vector[c] == 1
    ensures vcA.vector[a] == 1 || vcA.vector[a] == 5
  {
    vcA.vector := Three(a, b, c, 1, 1, 1);
    vcB.vector := Three(a, b, x, 5, 0, 9);
    ThreeSize(a, b, c, 1, 1, 1);
    ThreeSize(a, b, x, 5, 0, 9);
    var err, done := vcA.Merge(vcB);
    assert err.Some? && err.value.KeyMismatch?;
    assert err.value.node in {a, b, c} && err.value.node !in {a, b, x};
    assert err == Some(KeyMismatch(c));
    assert done <= {a, b};
  }

  /** Three increments of node1's clock give 3, 0, 0. */
  method IncrementScenario()
  {
    var vc, _, _ := NewThree("node1", "node2", "node3");
    Incremented3(vc, "node1", "node2", "node3", 0, 0, 0, "node1");
    Incremented3(vc, "node1", "node2", "node3", 1, 0, 0, "node1");
    Incremented3(vc, "node1", "node2", "node3", 2, 0, 0, "node1");
    assert vc.vector["node1"] == 3;
    assert vc.vector["node2"] == 0;
    assert vc.vector["node3"] == 0;
  }

  /** Construction from a valid index zeroes node1's counter; index 3 of three
      nodes is rejected. */
  method NewVectorClockScenario()
  {
    var nodes := ["node1", "node2", "node3"];
    var r := NewVectorClock(0, nodes);
    assert r.Ok?;
    assert nodes[0] in NodeSet(nodes);
    assert nodes[0] in r.value.vector && r.value.vector[nodes[0]] == 0;
    r := NewVectorClock(3, nodes);
    assert r == Err(InvalidIndex(3, 3));
  }

  method MaxScenario()
  {
    assert Max(0, 1) == 1;
  }

  /** Merging a clock with itself succeeds and changes nothing. */
  method MergeWithItself(vc: Clock)
    modifies vc`vector
    ensures vc.vector == old(vc.vector)
  {
    var err, done := vc.Merge(vc);
    assert err == None;
    ClockProperties.MergedIdempotent(old(vc.vector));
  }

  /** Merging a clock with a separate copy of itself succeeds, changes
      nothing and leaves the copy alone. */
  method MergeWithCopy(vc: Clock)
    modifies vc`vector
    ensures vc.vector == old(vc.vector)
  {
    var copy := new Clock(vc.myNode, vc.vector);
    var err, done := vc.Merge(copy);
    assert err == None;
    ClockProperties.MergedIdempotent(old(vc.vector));
    assert copy.vector == old(vc.vector);
  }

  /** Three processes exchanging clocks one call at a time; P0 ends at 7, 1, 2. */
  method FullTwoScenario()
  {
    var vc1, vc2, vc3 := NewThree("P0", "P1", "P2");
    FullTwoRounds(vc1, vc2, vc3, "P0", "P1", "P2");
    assert vc1.vector["P0"] == 7 && vc1.vector["P1"] == 1 && vc1.vector["P2"] == 2;
  }

  /** The calls of the three-process scenario over nodes `a`, `b`, `c`, in rounds. */
  method FullTwoRounds(vc1: Clock, vc2: Clock, vc3: Clock, a: string, b: string, c: string)
    requires a != b && b != c && a != c
    requires vc1 != vc2 && vc2 != vc3 && vc1 != vc3
    requires vc1.myNode == a && vc2.myNode == b && vc3.myNode == c
    requires vc1.vector == vc2.vector == vc3.vector == Three(a, b, c, 0, 0, 0)
    modifies vc1`vector, vc2`vector, vc3`vector
    ensures vc1.vector == Three(a, b, c, 7, 1, 2)
    ensures vc2.vector == Three(a, b, c, 6, 3, 2)
    ensures vc3.vector == Three(a, b, c, 4, 1, 3)
  {
    // increments of all three, then P0 again
    Incremented3(vc1, a, b, c, 0, 0, 0, a);
    Incremented3(vc2, a, b, c, 0, 0, 0, b);
    Incremented3(vc3, a, b, c, 0, 0, 0, c);
    Incremented3(vc1, a, b, c, 1, 0, 0, a);
    // P1 learns from P0, P0 steps and learns from P1
    Merged3(vc2, vc1, a, b, c, 0, 1, 0, 2, 0, 0);
    Incremented3(vc1, a, b, c, 2, 0, 0, a);
    Merged3(vc1, vc2, a, b, c, 3, 0, 0, 2, 1, 0);
    Incremented3(vc2, a, b, c, 2, 1, 0, b);
    Incremented3(vc1, a, b, c, 3, 1, 0, a);
    Incremented3(vc3, a, b, c, 0, 0, 1, c);
    // P0 learns from P2, P2 steps and learns from P0
    Merged3(vc1, vc3, a, b, c, 4, 1, 0, 0, 0, 2);
    Incremented3(vc3, a, b, c, 0, 0, 2, c);
    Merged3(vc3, vc1, a, b, c, 0, 0, 3, 4, 1, 2);
    Incremented3(vc1, a, b, c, 4, 1, 2, a);
    Incremented3(vc1, a, b, c, 5, 1, 2, a);
    // P1 learns from P0, both step
    Merged3(vc2, vc1, a, b, c, 2, 2, 0, 6, 1, 2);
    Incremented3(vc2, a, b, c, 6, 2, 2, b);
    Incremented3(vc1, a, b, c, 6, 1, 2, a);
  }

  /** One increment of a clock over three nodes whose counters are written out. */
  method Incremented3(vc: Clock, a: string, b: string, c: string, x: int, y: int, z: int, owner: string)
    requires a != b && b != c && a != c
    requires vc.myNode == owner && (owner == a || owner == b || owner == c)
    requires vc.vector == Three(a, b, c, x, y, z)
    modifies vc`vector
    ensures vc.vector == Three(a, b, c, if owner == a then x + 1 else x, if owner == b then y + 1 else y,
                               if owner == c then z + 1 else z)
  {
    IncrementedThree(a, b, c, x, y, z, owner);
    vc.Increment();
  }

  /** One successful merge of two clocks over the same three nodes. */
  method Merged3(vc: Clock, peer: Clock, a: string, b: string, c: string,
                 x1: int, y1: int, z1: int, x2: int, y2: int, z2: int)
    requires a != b && b != c && a != c
    requires vc.vector == Three(a, b, c, x1, y1, z1)
    requires peer.vector == Three(a, b, c, x2, y2, z2)
    modifies vc`vector
    ensures vc.vector == Three(a, b, c, Max(x1, x2), Max(y1, y2), Max(z1, z2))
  {
    MergedThree(a, b, c, x1, y1, z1, x2, y2, z2);
    var err, done := vc.Merge(peer);
    assert err == None;
  }
}
