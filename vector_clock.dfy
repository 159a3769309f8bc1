/**
 * A vector clock: one node's view of logical time over a fixed set of nodes.
 * The clock is an object whose counter map is updated in place by Increment
 * and Merge; NewVectorClock builds one from a node list and an owner index.
 */
module VectorClock {

  /** The three failures of the clock operations, carrying the data that the
      source formats into its error messages. */
  datatype Error =
    | InvalidIndex(count: nat, index: int)
    | LengthMismatch(selfLength: nat, peerLength: nat)
    | KeyMismatch(node: string)

  /** `None` plays the part of Go's nil error. */
  datatype Option<T> = None | Some(value: T)

  datatype Result<T> = Ok(value: T) | Err(error: Error)

  /** Counter map from node identifier to counter (Go `map[string]int`). */
  type Vector = map<string, int>

  /** The two-integer maximum helper. */
  function Max(a: int, b: int): (r: int)
    ensures r >= a && r >= b
    ensures r == a || r == b
  {
    if a > b then a else b
  }

  /** Reading a Go map: a key that is absent reads as the zero value. */
  function Get(v: Vector, k: string): int
  {
    if k in v then v[k] else 0
  }

  /** The counter map after the owner's counter is bumped by one. */
  function Incremented(v: Vector, owner: string): (r: Vector)
    ensures r.Keys == v.Keys + {owner}
    ensures owner in v ==> r.Keys == v.Keys
    ensures r[owner] == Get(v, owner) + 1
    ensures forall k :: k in v && k != owner ==> r[k] == v[k]
  {
    v[owner := Get(v, owner) + 1]
  }

  /** The counter map once the merge loop has raised exactly the keys in
      `done` to the maximum with the peer, leaving every other key alone. */
  function Raised(v: Vector, p: Vector, done: set<string>): (r: Vector)
    requires done <= p.Keys
    ensures r.Keys == v.Keys
    ensures forall k :: k in r ==> r[k] >= v[k]
    ensures forall k :: k in r && k !in done ==> r[k] == v[k]
    ensures forall k :: k in r && k in done ==> r[k] >= p[k] && (r[k] == v[k] || r[k] == p[k])
  {
    map k | k in v :: if k in done then Max(v[k], p[k]) else v[k]
  }

  /** The elementwise maximum of `v` with a peer holding all of its keys:
      the result is at least each input, and each entry comes from one of them. */
  function Merged(v: Vector, p: Vector): (r: Vector)
    requires v.Keys <= p.Keys
    ensures r.Keys == v.Keys
    ensures forall k :: k in r ==> r[k] >= v[k] && r[k] >= p[k]
    ensures forall k :: k in r ==> r[k] == v[k] || r[k] == p[k]
  {
    map k | k in v :: Max(v[k], p[k])
  }

  /** Raising every key is the full merge. */
  lemma RaisedAllIsMerged(v: Vector, p: Vector)
    requires v.Keys <= p.Keys
    ensures Raised(v, p, v.Keys) == Merged(v, p)
  {
  }

  /** Raising no key changes nothing. */
  lemma RaisedNone(v: Vector, p: Vector)
    ensures Raised(v, p, {}) == v
  {
  }

  /** One more key raised: the update the merge loop makes for `node`. */
  lemma RaisedStep(v: Vector, p: Vector, done: set<string>, node: string)
    requires done <= p.Keys && node in v && node in p && node !in done
    ensures Raised(v, p, done)[node := Max(v[node], p[node])] == Raised(v, p, done + {node})
  {
  }

  /** Raising any keys of a map against itself changes nothing. */
  lemma RaisedSelf(v: Vector, done: set<string>)
    requires done <= v.Keys
    ensures Raised(v, v, done) == v
  {
  }

  /** The merge guard: equal sizes plus "every key of self is in peer" is
      exactly key-set equality. */
  lemma SameSizeSubsetEqual(a: set<string>, b: set<string>)
    requires a <= b && |a| == |b|
    ensures a == b
  {
    if a != b {
      var x :| x in b && x !in a;
      assert a <= b - {x};
      SubsetSize(a, b - {x});
    }
  }

  /** A subset is no larger than its superset. */
  lemma SubsetSize(a: set<string>, b: set<string>)
    requires a <= b
    ensures |a| <= |b|
  {
    assert b == a + (b - a);
  }

  /** The distinct identifiers of a node list. */
  function NodeSet(nodes: seq<string>): set<string>
  {
    set n | n in nodes
  }

  class Clock {
    var myNode: string
    var vector: Vector

    /** The owner's counter is present. */
    ghost predicate Valid()
      reads this
    {
      myNode in vector
    }

    constructor (owner: string, initial: Vector)
      ensures myNode == owner && vector == initial
    {
      myNode := owner;
      vector := initial;
    }

    /** Bumps the owner's counter by one; nothing else changes. */
    method Increment()
      modifies this`vector
      ensures vector == Incremented(old(vector), myNode)
      ensures Valid()
    {
      vector := vector[myNode := Get(vector, myNode) + 1];
    }

    /** Merges `peer` into this clock in place, visiting the keys of this
        clock in an arbitrary order and stopping at the first key the peer
        lacks. `done` is the set of keys raised before the call returned. */
    method Merge(peer: Clock) returns (err: Option<Error>, ghost done: set<string>)
      modifies this`vector
      ensures peer.vector == old(peer.vector)
      ensures done <= old(vector).Keys && done <= old(peer.vector).Keys
      ensures vector == Raised(old(vector), old(peer.vector), done)
      ensures old(Valid()) ==> Valid()
      ensures err.None? <==> old(vector).Keys == old(peer.vector).Keys
      ensures err.None? ==> done == old(vector).Keys && vector == Merged(old(vector), old(peer.vector))
      ensures err.Some? ==> err.value.LengthMismatch? || err.value.KeyMismatch?
      ensures (err.Some? && err.value.LengthMismatch?) <==> |old(vector)| != |old(peer.vector)|
      ensures err.Some? && err.value.LengthMismatch? ==>
                && err.value == LengthMismatch(|old(vector)|, |old(peer.vector)|)
                && done == {}
                && vector == old(vector)
      ensures err.Some? && err.value.KeyMismatch? ==>
                && |old(vector)| == |old(peer.vector)|
                && err.value.node in old(vector)
                && err.value.node !in old(peer.vector)
    {
      ghost var v0, p0 := vector, peer.vector;
      RaisedNone(v0, p0);
      if |vector| != |peer.vector| {
        err, done := Some(LengthMismatch(|vector|, |peer.vector|)), {};
        return;
      }
      var pending := vector.Keys;
      done := {};
      while pending != {}
        invariant done <= v0.Keys && pending == v0.Keys - done
        invariant done <= p0.Keys
        invariant vector == Raised(v0, p0, done)
        invariant peer.vector == p0
        decreases pending
      {
        var node :| node in pending;
        if node !in peer.vector {
          err := Some(KeyMismatch(node));
          return;
        }
        RaisedStep(v0, p0, done, node);
        vector := vector[node := Max(vector[node], peer.vector[node])];
        pending := pending - {node};
        done := done + {node};
        if peer == this {
          RaisedSelf(v0, done);
        }
      }
      SameSizeSubsetEqual(v0.Keys, p0.Keys);
      RaisedAllIsMerged(v0, p0);
      err := None;
    }
  }

  /** Creates the clock of node `nodes[myIndex]`, with a zero counter for
      every node of the list. */
  method NewVectorClock(myIndex: int, nodes: seq<string>) returns (r: Result<Clock>)
    ensures r.Err? <==> myIndex >= |nodes| || myIndex < 0
    ensures r.Err? ==> r.error == InvalidIndex(|nodes|, myIndex)
    ensures r.Ok? ==> fresh(r.value) && r.value.Valid()
    ensures r.Ok? ==> r.value.myNode == nodes[myIndex]
    ensures r.Ok? ==> r.value.vector.Keys == NodeSet(nodes)
    ensures r.Ok? ==> forall k :: k in r.value.vector ==> r.value.vector[k] == 0
  {
    if myIndex >= |nodes| || myIndex < 0 {
      return Err(InvalidIndex(|nodes|, myIndex));
    }
    var vc := new Clock(nodes[myIndex], map[]);
    for i := 0 to |nodes|
      invariant vc.myNode == nodes[myIndex]
      invariant vc.vector.Keys == NodeSet(nodes[..i])
      invariant forall k :: k in vc.vector ==> vc.vector[k] == 0
    {
      assert nodes[..i + 1] == nodes[..i] + [nodes[i]];
      vc.vector := vc.vector[nodes[i] := 0];
    }
    assert nodes[..|nodes|] == nodes;
    return Ok(vc);
  }
}
