/** Vector clocks: a finite map from node to counter in which a missing node
    counts as zero, and the causal order it induces. */
module VectorClocks {

  type Node = string
  type Clock = map<Node, nat>

  function Component(c: Clock, n: Node): nat {
    if n in c then c[n] else 0
  }

  /** Component-wise order.  The four relations the engine distinguishes are the
      four combinations of `AtMost(c, d)` and `AtMost(d, c)`. */
  predicate AtMost(c: Clock, d: Clock) {
    forall n :: n in c ==> c[n] <= Component(d, n)
  }

  predicate SameHistory(c: Clock, d: Clock) {
    AtMost(c, d) && AtMost(d, c)
  }

  predicate Before(c: Clock, d: Clock) {
    AtMost(c, d) && !AtMost(d, c)
  }

  predicate Concurrent(c: Clock, d: Clock) {
    !AtMost(c, d) && !AtMost(d, c)
  }

  function Incremented(c: Clock, n: Node): Clock {
    c[n := Component(c, n) + 1]
  }

  function Merged(c: Clock, d: Clock): Clock {
    map n | n in c.Keys + d.Keys ::
      if Component(c, n) < Component(d, n) then Component(d, n) else Component(c, n)
  }

  lemma AtMostEverywhere(c: Clock, d: Clock)
    ensures AtMost(c, d) <==> forall n :: Component(c, n) <= Component(d, n)
  {
    if forall n :: Component(c, n) <= Component(d, n) {
      forall n | n in c ensures c[n] <= Component(d, n) {
        assert Component(c, n) <= Component(d, n);
      }
    }
  }

  lemma AtMostTransitive(c: Clock, d: Clock, e: Clock)
    requires AtMost(c, d) && AtMost(d, e)
    ensures AtMost(c, e)
  {
    forall n | n in c ensures c[n] <= Component(e, n) {
      assert c[n] <= Component(d, n);
    }
  }

  /** `Before` is a strict partial order and respects `SameHistory`. */
  lemma BeforeTransitive(c: Clock, d: Clock, e: Clock)
    requires AtMost(c, d) && AtMost(d, e)
    requires Before(c, d) || Before(d, e)
    ensures Before(c, e)
  {
    AtMostTransitive(c, d, e);
    if AtMost(e, c) {
      AtMostTransitive(e, c, d);
      AtMostTransitive(d, e, c);
    }
  }

  /** One step of local history is strictly later, and only the stepping
      node's component tells. */
  lemma IncrementIsLater(c: Clock, n: Node)
    ensures Before(c, Incremented(c, n))
    ensures forall m :: Component(Incremented(c, n), m) == Component(c, m) + if m == n then 1 else 0
  {
    assert Incremented(c, n)[n] > Component(c, n);
    assert n in Incremented(c, n);
  }

  /** The merge is the least upper bound of the causal order. */
  lemma MergeIsLeastUpperBound(c: Clock, d: Clock, e: Clock)
    ensures AtMost(c, Merged(c, d)) && AtMost(d, Merged(c, d))
    ensures AtMost(Merged(c, d), e) <==> AtMost(c, e) && AtMost(d, e)
  {
    var m := Merged(c, d);
    if AtMost(m, e) {
      forall n | n in c ensures c[n] <= Component(e, n) { assert m[n] <= Component(e, n); }
      forall n | n in d ensures d[n] <= Component(e, n) { assert m[n] <= Component(e, n); }
    }
  }

  /** Taking a remote clock verbatim is the same as merging it in exactly when
      the local history is contained in the remote one. */
  lemma VerbatimIsMergeIff(local: Clock, remote: Clock)
    ensures SameHistory(remote, Merged(local, remote)) <==> AtMost(local, remote)
  {
    MergeIsLeastUpperBound(local, remote, remote);
  }

  class VectorClock {
    const nodeId: Node
    var clock: Clock

    constructor (nodeId: Node, clock: Clock)
      ensures this.nodeId == nodeId && this.clock == clock
    {
      this.nodeId := nodeId;
      this.clock := clock;
    }

    method Increment()
      modifies this
      ensures clock == Incremented(old(clock), nodeId)
      ensures Before(old(clock), clock)
    {
      clock := clock[nodeId := (if nodeId in clock then clock[nodeId] else 0) + 1];
      IncrementIsLater(old(clock), nodeId);
    }

    /** Receive rule: afterwards this clock is the least one above both. */
    method Update(other: VectorClock)
      modifies this
      ensures clock == Merged(old(clock), old(other.clock))
    {
      var theirs := other.clock;
      ghost var mine := clock;
      var todo := theirs.Keys;
      while todo != {}
        invariant todo <= theirs.Keys
        invariant forall n :: n in clock <==> n in mine || (n in theirs && n !in todo)
        invariant forall n :: n in clock && n in todo ==> clock[n] == mine[n]
        invariant forall n :: n in clock && n !in todo ==> clock[n] == Merged(mine, theirs)[n]
        decreases todo
      {
        var n :| n in todo;
        var current := if n in clock then clock[n] else 0;
        clock := clock[n := if current < theirs[n] then theirs[n] else current];
        todo := todo - {n};
      }
      assert clock.Keys == Merged(mine, theirs).Keys;
    }

    method HappensBefore(other: VectorClock) returns (before: bool)
      ensures before == Before(clock, other.clock)
    {
      var todo := clock.Keys + other.clock.Keys;
      var atLeastOneLess := false;
      while todo != {}
        invariant todo <= clock.Keys + other.clock.Keys
        invariant forall n :: n in clock.Keys + other.clock.Keys - todo ==>
                                Component(clock, n) <= Component(other.clock, n)
        invariant atLeastOneLess ==> !AtMost(other.clock, clock)
        invariant !atLeastOneLess ==> forall n :: n in clock.Keys + other.clock.Keys - todo ==>
                                                    Component(clock, n) == Component(other.clock, n)
        decreases |todo|
      {
        var n :| n in todo;
        todo := todo - {n};
        var s := if n in clock then clock[n] else 0;
        var o := if n in other.clock then other.clock[n] else 0;
        if s > o {
          assert clock[n] > Component(other.clock, n);
          return false;
        }
        if s < o {
          assert other.clock[n] > Component(clock, n);
          atLeastOneLess := true;
        }
      }
      assert forall n :: n in clock ==> n in clock.Keys + other.clock.Keys - todo;
      assert AtMost(clock, other.clock) by {
        forall n | n in clock ensures clock[n] <= Component(other.clock, n) {
          assert Component(clock, n) <= Component(other.clock, n);
        }
      }
      if !atLeastOneLess {
        forall n | n in other.clock ensures other.clock[n] <= Component(clock, n) {
          assert n in clock.Keys + other.clock.Keys - todo;
          assert Component(clock, n) == Component(other.clock, n);
        }
      }
      return atLeastOneLess;
    }

    predicate Equals(other: VectorClock)
      reads this, other
    {
      forall n :: n in clock.Keys + other.clock.Keys ==> Component(clock, n) == Component(other.clock, n)
    }

    lemma EqualsIsSameHistory(other: VectorClock)
      ensures Equals(other) <==> SameHistory(clock, other.clock)
    {
      AtMostEverywhere(clock, other.clock);
      AtMostEverywhere(other.clock, clock);
      if Equals(other) {
        forall n ensures Component(clock, n) == Component(other.clock, n) {
          if n !in clock.Keys + other.clock.Keys { }
        }
      }
    }

    method ConcurrentWith(other: VectorClock) returns (conflict: bool)
      ensures conflict == Concurrent(clock, other.clock)
    {
      EqualsIsSameHistory(other);
      var lt := HappensBefore(other);
      var gt := other.HappensBefore(this);
      conflict := !Equals(other) && !lt && !gt;
    }
  }
}
