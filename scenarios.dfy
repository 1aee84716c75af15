/**
 * Clients of the grid view. Each method uses only the contracts of the
 * adapter and the cursor and states, about what it reads back, one of the
 * promises the view makes: clone-on-create, independence of copies, lazy
 * moves and idempotent reads.
 */
module Scenarios {
  import Long
  import Points
  import Affine
  import Sources
  import Transforms
  import Grid

  /**
   * A cursor taken before the transform is edited keeps reading through the
   * old parameters; a cursor taken afterwards reads through the new ones.
   */
  method MutationIsolation<T>(sample: seq<int> -> T, matrix: seq<seq<int>>, offset: seq<int>,
                              matrix': seq<seq<int>>, offset': seq<int>, p: seq<int>)
    returns (early: T, late: T)
    requires Affine.Shaped(matrix, offset, |p|) && Affine.Shaped(matrix', offset', |p|)
    requires |offset'| == |offset| && Long.AllInRange(p)
    ensures early == sample(Affine.Map(matrix, offset, p))
    ensures late == sample(Affine.Map(matrix', offset', p))
  {
    var source := new Sources.Source(|offset|, sample);
    var transform := new Transforms.AffineTransform(|p|, matrix, offset);
    var view := new Grid.RealTransformRandomAccessible(source, transform);
    var before := view.RandomAccess();
    before.ReadsThrough(source, transform, p);
    transform.Set(matrix', offset');
    var after := view.RandomAccess();
    after.ReadsThrough(source, transform, p);
    before.SetPosition(p);
    after.SetPosition(p);
    early := before.Get();
    late := after.Get();
  }

  /**
   * A copy starts at the original's position; afterwards moving and reading
   * either one leaves the other's position and readings alone, and moving
   * back reproduces the reading from before the move.
   */
  method CopyIndependence<T>(view: Grid.RealTransformRandomAccessible<T>, p: seq<int>, distance: seq<int>)
    returns (moved: T, unmoved: T, copyMoved: T, movedBack: T)
    requires view.Valid() && |p| == view.transformToSource.numSourceDimensions
    requires Long.AllInRange(p) && |distance| >= |p|
    ensures moved == view.source.sample(view.transformToSource.Eval(Points.Moved(p, distance)))
    ensures unmoved == view.source.sample(view.transformToSource.Eval(p))
    ensures copyMoved == moved
    ensures movedBack == unmoved
  {
    var there := Points.Moved(p, distance);
    var original := view.RandomAccess();
    original.ReadsThrough(view.source, view.transformToSource, p);
    original.ReadsThrough(view.source, view.transformToSource, there);
    original.SetPosition(p);
    var copy := original.Copy();
    original.MoveBy(distance);
    moved := original.Get();
    unmoved := copy.Get();
    copy.MoveBy(distance);
    original.MoveBy(Points.Negated(distance));
    Points.MoveBack(p, distance);
    copyMoved := copy.Get();
    movedBack := original.Get();
  }

  /** Two reads with no move in between yield the same value. */
  method IdempotentRead<T>(view: Grid.RealTransformRandomAccessible<T>, p: seq<int>)
    returns (first: T, second: T)
    requires view.Valid() && |p| == view.transformToSource.numSourceDimensions && Long.AllInRange(p)
    ensures first == view.source.sample(view.transformToSource.Eval(p))
    ensures second == first
  {
    var cursor := view.RandomAccess();
    cursor.ReadsThrough(view.source, view.transformToSource, p);
    cursor.SetPosition(p);
    first := cursor.Get();
    second := cursor.Get();
  }

  /**
   * Moves change only the integer position: the source access still holds
   * the coordinate the last read wrote, until the next read re-applies the
   * transform at the new position.
   */
  method LazyMoves<T>(view: Grid.RealTransformRandomAccessible<T>, p: seq<int>, distance: seq<int>)
    returns (heldAfterMoves: seq<int>, next: T)
    requires view.Valid() && |p| == view.transformToSource.numSourceDimensions && |p| > 0
    requires Long.AllInRange(p) && |distance| >= |p|
    ensures heldAfterMoves == view.transformToSource.Eval(p)
    ensures next == view.source.sample(view.transformToSource.Eval(
                      Points.Moved(Points.Moved(p, distance), Points.Origin(|p|)[0 := 1])))
  {
    var there := Points.Moved(Points.Moved(p, distance), Points.Origin(|p|)[0 := 1]);
    var cursor := view.RandomAccess();
    cursor.ReadsThrough(view.source, view.transformToSource, there);
    cursor.SetPosition(p);
    var _ := cursor.Get();
    assert cursor.transformCopy.Eval(p) == view.transformToSource.Eval(p);
    cursor.MoveBy(distance);
    cursor.Fwd(0);
    heldAfterMoves := cursor.sourceAccess.position;
    next := cursor.Get();
  }

  /**
   * Cursors from `RandomAccess` and from `RandomAccessOn` are separate
   * objects that read the same way: moving one leaves the other at the
   * origin, whatever bounds were passed.
   */
  method SeparateCursors<T>(view: Grid.RealTransformRandomAccessible<T>, bounds: Grid.Interval, p: seq<int>)
    returns (atP: T, atOrigin: T, bounded: T)
    requires view.Valid() && |p| == view.transformToSource.numSourceDimensions && Long.AllInRange(p)
    ensures atP == view.source.sample(view.transformToSource.Eval(p))
    ensures atOrigin == view.source.sample(view.transformToSource.Eval(Points.Origin(|p|)))
    ensures bounded == atP
  {
    var plain := view.RandomAccess();
    var other := view.RandomAccessOn(bounds);
    plain.ReadsThrough(view.source, view.transformToSource, p);
    other.ReadsThrough(view.source, view.transformToSource, p);
    other.ReadsThrough(view.source, view.transformToSource, Points.Origin(|p|));
    plain.SetPosition(p);
    atP := plain.Get();
    atOrigin := other.Get();
    other.SetPosition(p);
    bounded := other.Get();
  }

  /** The sum of the first two coordinates, as a 2-dimensional test field. */
  function SumOfFirstTwo(x: seq<int>): int {
    if |x| >= 2 then x[0] + x[1] else 0
  }

  /** A cursor over the field x + y through the identity transform, at (3, 4). */
  method IdentityCursorAt34() returns (cursor: Grid.RealTransformRandomAccess<int>)
    ensures fresh(cursor.Repr()) && cursor.Valid() && cursor.position[..] == [3, 4]
    ensures cursor.sourceAccess.sample == SumOfFirstTwo
    ensures cursor.transformCopy.matrix == Affine.Identity(2) && cursor.transformCopy.offset == [0, 0]
  {
    var source := new Sources.Source(2, SumOfFirstTwo);
    var transform := new Transforms.AffineTransform(2, Affine.Identity(2), [0, 0]);
    var view := new Grid.RealTransformRandomAccessible(source, transform);
    cursor := view.RandomAccess();
    cursor.SetPosition([3, 4]);
  }

  /** Identity transform over x + y: (3, 4) reads 7. */
  method IdentityScenario() returns (v: int)
    ensures v == 7
  {
    var cursor := IdentityCursorAt34();
    Affine.IdentityMap([3, 4], [0, 0]);
    v := cursor.Get();
  }

  /** Identity transform over x + y: from (3, 4), one step forward in x reads 8. */
  method IdentityStepScenario() returns (v: int)
    ensures v == 8
  {
    var cursor := IdentityCursorAt34();
    cursor.Fwd(0);
    assert cursor.position[..] == [4, 4];
    Affine.IdentityMap([4, 4], [0, 0]);
    v := cursor.Get();
  }

  /** Translation by (10, 0): the origin reads 10. */
  method TranslationScenario() returns (v: int)
    ensures v == 10
  {
    var source := new Sources.Source(2, SumOfFirstTwo);
    Affine.IdentityMap([0, 0], [10, 0]);
    var transform := new Transforms.AffineTransform(2, Affine.Identity(2), [10, 0]);
    var view := new Grid.RealTransformRandomAccessible(source, transform);
    var cursor := view.RandomAccess();
    assert cursor.position[..] == [0, 0];
    v := cursor.Get();
  }
}
