/**
 * The integer position of a grid cursor, as a value: the new position each
 * of Point's operations leaves behind. Point keeps `n` longs and its
 * multi-dimensional operations loop over the first `n` entries of the
 * argument, ignoring any further ones.
 */
module Points {
  import Long

  /** The position of a freshly constructed `n`-dimensional Point: the origin. */
  function Origin(n: nat): (p: seq<int>)
    ensures |p| == n && Long.AllInRange(p)
    ensures forall i :: 0 <= i < n ==> p[i] == 0
  {
    seq(n, _ => 0)
  }

  /** `p` moved by `distance` in every dimension, with Java's long wrap-around. */
  function Moved(p: seq<int>, distance: seq<int>): (r: seq<int>)
    requires |distance| >= |p|
    ensures |r| == |p| && Long.AllInRange(r)
    ensures Long.AllInRange(p) && Long.AllInRange(distance[..|p|]) && Long.AllInRange(Sum(p, distance)) ==> r == Sum(p, distance)
  {
    seq(|p|, i requires 0 <= i < |p| => Long.Wrap(p[i] + distance[i]))
  }

  /** The exact (unwrapped) componentwise sum of `p` and the first `|p|` entries of `distance`. */
  function Sum(p: seq<int>, distance: seq<int>): (r: seq<int>)
    requires |distance| >= |p|
    ensures |r| == |p|
  {
    seq(|p|, i requires 0 <= i < |p| => p[i] + distance[i])
  }

  /** Java's negation of every long in `distance`. */
  function Negated(distance: seq<int>): (r: seq<int>)
    ensures |r| == |distance| && Long.AllInRange(r)
  {
    seq(|distance|, i requires 0 <= i < |distance| => Long.Wrap(-distance[i]))
  }

  /** Moving by a distance and then by its negation returns to the start. */
  lemma MoveBack(p: seq<int>, distance: seq<int>)
    requires |distance| >= |p| && Long.AllInRange(p)
    ensures Moved(Moved(p, distance), Negated(distance)) == p
  {
    forall i | 0 <= i < |p|
      ensures Moved(Moved(p, distance), Negated(distance))[i] == p[i]
    {
      Long.AddThenNegate(p[i], distance[i]);
    }
  }
}
