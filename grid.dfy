/**
 * The grid view of a transformed continuous source: an adapter that hands
 * out integer-addressed cursors, and the cursor that samples the source at
 * the transformed image of its position.
 *
 * Ownership: every cursor owns its position array, a private copy of the
 * transform and a private access into the source (`Repr()`), all freshly
 * allocated; nothing a cursor owns is shared with the adapter or with any
 * other cursor.
 */
module Grid {
  import Long
  import Points
  import Sources
  import Transforms

  /** Bounds a caller may pass when asking for a cursor; the default ignores them. */
  datatype Interval = Interval(min: seq<int>, max: seq<int>)

  /** A cursor: an integer Point plus its private transform copy and source access. */
  class RealTransformRandomAccess<T> {
    const position: array<int>
    const sourceAccess: Sources.SourceAccess<T>
    const transformCopy: Transforms.AffineTransform

    /** The objects this cursor owns. */
    ghost function Repr(): set<object> {
      {this, position, sourceAccess, transformCopy}
    }

    ghost predicate Valid()
      reads this, position, sourceAccess, transformCopy
    {
      transformCopy.Valid() && sourceAccess.Valid()
      && position.Length == transformCopy.numSourceDimensions
      && sourceAccess.numDimensions == transformCopy.numTargetDimensions
      && Long.AllInRange(position[..])
    }

    /** What a read at grid position `p` yields with the private transform as it is now. */
    ghost function ValueAt(p: seq<int>): T
      reads transformCopy
      requires transformCopy.Valid() && |p| == transformCopy.numSourceDimensions
    {
      sourceAccess.sample(transformCopy.Eval(p))
    }

    /** What a read at the current position yields. */
    ghost function Value(): T
      reads this, position, sourceAccess, transformCopy
      requires Valid()
    {
      ValueAt(position[..])
    }

    /** This cursor samples `source` through a transform equal to `transform`. */
    ghost predicate SamplesThrough(source: Sources.Source<T>, transform: Transforms.AffineTransform)
      reads transformCopy, transform
    {
      sourceAccess.sample == source.sample
      && sourceAccess.numDimensions == source.numDimensions
      && transformCopy.numSourceDimensions == transform.numSourceDimensions
      && transformCopy.numTargetDimensions == transform.numTargetDimensions
      && transformCopy.matrix == transform.matrix
      && transformCopy.offset == transform.offset
    }

    /** A cursor that samples through `transform` reads what `source` holds at its image. */
    lemma ReadsThrough(source: Sources.Source<T>, transform: Transforms.AffineTransform, x: seq<int>)
      requires SamplesThrough(source, transform) && transform.Valid()
      requires |x| == transform.numSourceDimensions
      ensures transformCopy.Valid() && ValueAt(x) == source.sample(transform.Eval(x))
    {
    }

    /** A cursor at the origin, with a new source access and a clone of the adapter's transform. */
    constructor (source: Sources.Source<T>, transformToSource: Transforms.AffineTransform)
      requires transformToSource.Valid()
      requires source.numDimensions == transformToSource.numTargetDimensions
      ensures Valid() && fresh(Repr())
      ensures position[..] == Points.Origin(transformToSource.numSourceDimensions)
      ensures SamplesThrough(source, transformToSource)
    {
      position := new int[transformToSource.numSourceDimensions](_ => 0);
      var access := source.RealRandomAccess();
      var clone := transformToSource.Copy();
      sourceAccess, transformCopy := access, clone;
      new;
      assert position[..] == Points.Origin(transformToSource.numSourceDimensions);
    }

    /** A cursor at the same position as `a`, with clones of `a`'s access and transform. */
    constructor CopyOf(a: RealTransformRandomAccess<T>)
      requires a.Valid()
      ensures Valid() && fresh(Repr())
      ensures position[..] == a.position[..]
      ensures sourceAccess.sample == a.sourceAccess.sample && sourceAccess.position == a.sourceAccess.position
      ensures transformCopy.matrix == a.transformCopy.matrix && transformCopy.offset == a.transformCopy.offset
      ensures Value() == a.Value()
    {
      var p := new int[a.position.Length];
      var d := 0;
      while d < p.Length
        invariant 0 <= d <= p.Length
        invariant forall i :: 0 <= i < d ==> p[i] == a.position[i]
      {
        p[d] := a.position[d];
        d := d + 1;
      }
      var access := a.sourceAccess.Copy();
      var clone := a.transformCopy.Copy();
      position, sourceAccess, transformCopy := p, access, clone;
      new;
      assert position[..] == a.position[..];
    }

    /** The number of grid dimensions: the transform's source dimensionality. */
    method NumDimensions() returns (n: nat)
      requires Valid()
      ensures n == position.Length && n == transformCopy.numSourceDimensions
    {
      n := position.Length;
    }

    /** The coordinate of the current position in dimension `d`. */
    method GetLongPosition(d: nat) returns (x: int)
      requires Valid() && d < position.Length
      ensures x == position[..][d] && Long.InRange(x)
    {
      x := position[d];
    }

    /** One step forward in dimension `d`. */
    method Fwd(d: nat)
      requires Valid() && d < position.Length
      modifies position
      ensures Valid()
      ensures position[..] == Points.Moved(old(position[..]), Points.Origin(position.Length)[d := 1])
    {
      position[d] := Long.Wrap(position[d] + 1);
    }

    /** One step backward in dimension `d`. */
    method Bck(d: nat)
      requires Valid() && d < position.Length
      modifies position
      ensures Valid()
      ensures position[..] == Points.Moved(old(position[..]), Points.Origin(position.Length)[d := -1])
    {
      position[d] := Long.Wrap(position[d] - 1);
    }

    /** Moves by `distance` in dimension `d`. */
    method Move(distance: int, d: nat)
      requires Valid() && d < position.Length
      modifies position
      ensures Valid()
      ensures position[..] == Points.Moved(old(position[..]), Points.Origin(position.Length)[d := distance])
    {
      position[d] := Long.Wrap(position[d] + distance);
    }

    /** Moves by `distance[i]` in every dimension `i`. */
    method MoveBy(distance: seq<int>)
      requires Valid() && |distance| >= position.Length
      modifies position
      ensures Valid()
      ensures position[..] == Points.Moved(old(position[..]), distance)
    {
      var d := 0;
      while d < position.Length
        invariant 0 <= d <= position.Length
        invariant forall i :: 0 <= i < d ==> position[i] == Long.Wrap(old(position[i]) + distance[i])
        invariant forall i :: d <= i < position.Length ==> position[i] == old(position[i])
      {
        position[d] := Long.Wrap(position[d] + distance[d]);
        d := d + 1;
      }
    }

    /** Sets coordinate `d` to `x`. */
    method SetCoordinate(x: int, d: nat)
      requires Valid() && d < position.Length && Long.InRange(x)
      modifies position
      ensures Valid()
      ensures position[..] == old(position[..])[d := x]
    {
      position[d] := x;
    }

    /** Sets every coordinate `i` to `p[i]`. */
    method SetPosition(p: seq<int>)
      requires Valid() && |p| >= position.Length && Long.AllInRange(p)
      modifies position
      ensures Valid()
      ensures position[..] == p[..position.Length]
      ensures |p| == position.Length ==> position[..] == p
    {
      var d := 0;
      while d < position.Length
        invariant 0 <= d <= position.Length
        invariant forall i :: 0 <= i < d ==> position[i] == p[i]
        invariant forall i :: d <= i < position.Length ==> position[i] == old(position[i])
      {
        position[d] := p[d];
        d := d + 1;
      }
    }

    /** Writes the image of the current position into the private source access. */
    method Apply()
      requires Valid()
      modifies sourceAccess
      ensures Valid()
      ensures sourceAccess.position == transformCopy.Eval(position[..])
    {
      transformCopy.ApplyTo(position, sourceAccess);
    }

    /** Re-applies the private transform to the current position and reads the source there. */
    method Get() returns (v: T)
      requires Valid()
      modifies sourceAccess
      ensures Valid()
      ensures sourceAccess.position == transformCopy.Eval(position[..])
      ensures v == sourceAccess.sample(sourceAccess.position)
      ensures v == Value() && Value() == old(Value())
    {
      Apply();
      v := sourceAccess.Get();
    }

    /** An independent cursor at the same position. */
    method Copy() returns (r: RealTransformRandomAccess<T>)
      requires Valid()
      ensures fresh(r.Repr())
      ensures r.Valid() && r.position[..] == position[..]
      ensures r.sourceAccess.sample == sourceAccess.sample && r.sourceAccess.position == sourceAccess.position
      ensures r.transformCopy.matrix == transformCopy.matrix && r.transformCopy.offset == transformCopy.offset
      ensures r.Value() == Value()
    {
      r := new RealTransformRandomAccess.CopyOf(this);
    }

    /** The same as `Copy`. */
    method CopyRandomAccess() returns (r: RealTransformRandomAccess<T>)
      requires Valid()
      ensures fresh(r.Repr())
      ensures r.Valid() && r.position[..] == position[..]
      ensures r.sourceAccess.sample == sourceAccess.sample && r.sourceAccess.position == sourceAccess.position
      ensures r.transformCopy.matrix == transformCopy.matrix && r.transformCopy.offset == transformCopy.offset
      ensures r.Value() == Value()
    {
      r := Copy();
    }
  }

  /** The adapter: a source and the transform that maps grid coordinates into it. */
  class RealTransformRandomAccessible<T> {
    const source: Sources.Source<T>
    const transformToSource: Transforms.AffineTransform

    ghost predicate Valid()
      reads transformToSource
    {
      transformToSource.Valid() && source.numDimensions == transformToSource.numTargetDimensions
    }

    constructor (source: Sources.Source<T>, transformToSource: Transforms.AffineTransform)
      requires transformToSource.Valid() && source.numDimensions == transformToSource.numTargetDimensions
      ensures Valid() && this.source == source && this.transformToSource == transformToSource
    {
      this.source := source;
      this.transformToSource := transformToSource;
    }

    /** A new cursor at the origin, bound to the transform's parameters as they are now. */
    method RandomAccess() returns (c: RealTransformRandomAccess<T>)
      requires Valid()
      ensures fresh(c.Repr())
      ensures c.Valid() && c.position[..] == Points.Origin(transformToSource.numSourceDimensions)
      ensures c.SamplesThrough(source, transformToSource)
    {
      c := new RealTransformRandomAccess(source, transformToSource);
    }

    /** A new cursor for a region of interest; the bounds are ignored. */
    method RandomAccessOn(interval: Interval) returns (c: RealTransformRandomAccess<T>)
      requires Valid()
      ensures fresh(c.Repr())
      ensures c.Valid() && c.position[..] == Points.Origin(transformToSource.numSourceDimensions)
      ensures c.SamplesThrough(source, transformToSource)
    {
      c := RandomAccess();
    }
  }
}
