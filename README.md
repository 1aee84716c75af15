# RealTransformRandomAccessible, modelled in Dafny

ImgLib2's `RealTransformRandomAccessible` shows a continuous source as an
integer grid. Every grid position goes through a coordinate transform
before the source is sampled. The class does no numerics. What it does
have is an ownership and aliasing discipline:

- The adapter holds the `source` and the `transformToSource`. It is a factory:
  `randomAccess()` builds a new cursor, and `randomAccess(Interval)` ignores
  its bounds and does the same thing.
- A cursor (`RealTransformRandomAccess`, a `Point`) owns three things, all
  freshly allocated: its `long[]` position, a private copy of the transform
  (`transformCopy`) and a private access into the source (`sourceAccess`).
- Moving a cursor changes only its position. `get()` applies the private
  transform to the current position, every time, writes the result into
  `sourceAccess`, and reads the source there.
- `copy()` copies the position by value and clones both the transform and
  the source access. The original and the copy share nothing.
- Editing the adapter's transform in place therefore affects only cursors
  created later.

The project, module by module:

- `long.dfy`, module `Long`: Java `long` arithmetic. Point keeps its position
  in a `long[]`, so moves wrap modulo 2^64. `Wrap` makes that wrap explicit.
- `points.dfy`, module `Points`: the position each Point operation leaves
  behind, as a value. `Origin` is a new Point; `Moved` is a move with
  wrap-around. `MoveBack` proves that moving by a distance and then by its
  negation restores the position.
- `sources.dfy`, module `Sources`: the continuous source (`Source`, standing
  for `RealRandomAccessible`) and its sampling access (`SourceAccess`,
  standing for `RealRandomAccess`). The field is a total function from
  coordinates to values.
- `transforms.dfy`, modules `Affine` and `Transforms`: the transform. It is
  an integer affine map from N grid dimensions to M source dimensions, held
  in a class (`AffineTransform`) with mutable parameters. `Apply` is proved
  against the pure `Affine.Map`. The identity and translation transforms are
  lemmas about `Affine.Identity`.
- `grid.dfy`, module `Grid`: the adapter (`RealTransformRandomAccessible`)
  and the cursor (`RealTransformRandomAccess`) as classes.
  - The cursor's `position` is an `array<int>`, like Point's `final long[]`.
  - The transform copy and the source access are `const` references to
    objects the cursor owns (`Repr()`).
  - Moves have `modifies position` and nothing else. `Get` and `Apply` have
    `modifies sourceAccess` and nothing else.
  - Constructors and copies promise `fresh` for everything the cursor owns.
- `scenarios.dfy`, module `Scenarios`: client methods that use only the
  contracts above. Each states, about the values it reads back, one promise
  of the class: clone-on-create, independence of copies, idempotent reads,
  lazy moves, and one cursor per call. It also has the identity and
  translation examples: reading (3, 4) gives 7, one step forward gives 8,
  and under translation by (10, 0) the origin gives 10.

The transform, the source and the source access are collaborators whose code
is not part of this model. They are written out only as far as the adapter
uses them: `numSourceDimensions`, `numTargetDimensions`, `apply` and `copy`
for the transform; `realRandomAccess` for the source; and setting the
coordinate, `get` and `copyRealRandomAccess` for the access.

## Model

| member | source | states |
|---|---|---|
| Grid.RealTransformRandomAccess.constructor | src/main/java/net/imglib2/realtransform/RealTransformRandomAccessible.java:76-81 | A new cursor sits at the origin. It has exactly `numSourceDimensions` coordinates. Its position array, its source access and its transform copy are freshly allocated. The copy has the adapter transform's parameters, and the access reads the adapter's source. |
| Grid.RealTransformRandomAccess.CopyOf | src/main/java/net/imglib2/realtransform/RealTransformRandomAccessible.java:84-89 | The copy constructor. Its position array is fresh and holds equal values (copied by value in a loop). The access is a fresh clone at the same coordinate, and the transform is a fresh clone with equal parameters. It reads the same value as the original. |
| Grid.RealTransformRandomAccess.Apply | src/main/java/net/imglib2/realtransform/RealTransformRandomAccessible.java:91-94 | Writes the private transform's image of the current position into the private source access. Only `sourceAccess` changes. |
| Grid.RealTransformRandomAccess.Get | src/main/java/net/imglib2/realtransform/RealTransformRandomAccessible.java:96-101 | Re-applies the transform, then reads. Afterwards the access holds the transform of the current position, and the result is the source sampled there. Only `sourceAccess` changes, and what a read yields is unchanged, so a second read returns the same value. |
| Grid.RealTransformRandomAccess.Copy | src/main/java/net/imglib2/realtransform/RealTransformRandomAccessible.java:103-107 | Returns a fresh cursor. Its position array, access and transform copy are all fresh. It has equal position values, an access at the same coordinate, and a transform with equal parameters, so it reads the same value. Nothing of the original changes. |
| Grid.RealTransformRandomAccess.CopyRandomAccess | src/main/java/net/imglib2/realtransform/RealTransformRandomAccessible.java:109-113 | Promises exactly what `Copy` promises. |
| Grid.RealTransformRandomAccess.ReadsThrough | src/main/java/net/imglib2/realtransform/RealTransformRandomAccessible.java:79-80 | A cursor whose access reads `source` and whose transform copy equals `transform` reads, at any grid position, the source value at that position's image under `transform`. |
| Grid.RealTransformRandomAccess.NumDimensions | src/main/java/net/imglib2/realtransform/RealTransformRandomAccessible.java:78 | The cursor's dimensionality is its position's length, and that equals the private transform's `numSourceDimensions`. |
| Grid.RealTransformRandomAccess.GetLongPosition | src/main/java/net/imglib2/realtransform/RealTransformRandomAccessible.java:69 | Point's coordinate read. It returns coordinate `d`, which is a Java long. |
| Grid.RealTransformRandomAccess.Fwd | src/main/java/net/imglib2/realtransform/RealTransformRandomAccessible.java:63-69 | Point's `fwd`. Adds one, with wrap-around, to coordinate `d` only. Only the position array is modified, so the transform and the source access do not change. |
| Grid.RealTransformRandomAccess.Bck | src/main/java/net/imglib2/realtransform/RealTransformRandomAccessible.java:63-69 | Point's `bck`. Subtracts one, with wrap-around, from coordinate `d` only. Only the position array is modified. |
| Grid.RealTransformRandomAccess.Move | src/main/java/net/imglib2/realtransform/RealTransformRandomAccessible.java:63-69 | Point's `move(distance, d)`. Adds `distance`, with wrap-around, to coordinate `d` only. Only the position array is modified. |
| Grid.RealTransformRandomAccess.MoveBy | src/main/java/net/imglib2/realtransform/RealTransformRandomAccessible.java:63-69 | Point's `move(long[])`. A loop adds `distance[i]` to every coordinate `i`. Entries beyond the dimensionality are ignored. The new position is `Points.Moved` of the old one. Only the position array is modified. |
| Grid.RealTransformRandomAccess.SetCoordinate | src/main/java/net/imglib2/realtransform/RealTransformRandomAccessible.java:63-69 | Point's `setPosition(value, d)`. Only coordinate `d` changes, and it becomes `x`. Only the position array is modified. |
| Grid.RealTransformRandomAccess.SetPosition | src/main/java/net/imglib2/realtransform/RealTransformRandomAccessible.java:63-69 | Point's `setPosition(long[])`. A loop makes the position the first `n` entries of `p`. Only the position array is modified. |
| Grid.RealTransformRandomAccessible.constructor | src/main/java/net/imglib2/realtransform/RealTransformRandomAccessible.java:116-119 | The adapter holds exactly the given source and transform. It does not copy them. |
| Grid.RealTransformRandomAccessible.RandomAccess | src/main/java/net/imglib2/realtransform/RealTransformRandomAccessible.java:121-125 | Every call returns a freshly allocated cursor. Its position array, access and transform copy are fresh, so it shares nothing with earlier cursors. It sits at the origin and samples the adapter's source through the transform's current parameters. |
| Grid.RealTransformRandomAccessible.RandomAccessOn | src/main/java/net/imglib2/realtransform/RealTransformRandomAccessible.java:127-135 | Ignores the interval. It promises exactly what `RandomAccess` promises. |
| Transforms.AffineTransform.Copy | src/main/java/net/imglib2/realtransform/RealTransformRandomAccessible.java:80 | The transform's `copy()` returns a fresh object with the same dimensionality and equal parameters. |
| Transforms.AffineTransform.Set | src/main/java/net/imglib2/realtransform/RealTransformRandomAccessible.java:48-52 | A consumer edits the transform's parameters in place. The dimensions stay the same, and only this transform object is modified. |
| Transforms.AffineTransform.Apply | src/main/java/net/imglib2/realtransform/RealTransformRandomAccessible.java:93 | Nested loops compute the image of the grid coordinate. It equals `Affine.Map` of the current parameters, which is `Eval`. |
| Transforms.AffineTransform.ApplyTo | src/main/java/net/imglib2/realtransform/RealTransformRandomAccessible.java:93 | `apply(this, sourceAccess)`. The target access's coordinate becomes the image of `x`, and only the target changes. |
| Sources.Source.RealRandomAccess | src/main/java/net/imglib2/realtransform/RealTransformRandomAccessible.java:79 | `source.realRandomAccess()` returns a fresh access into the same field, with the source's dimensionality. Where it starts is left open. |
| Sources.SourceAccess.Copy | src/main/java/net/imglib2/realtransform/RealTransformRandomAccessible.java:87 | `copyRealRandomAccess()` returns a fresh access into the same field, at the same coordinate. |
| Sources.SourceAccess.SetPosition | src/main/java/net/imglib2/realtransform/RealTransformRandomAccessible.java:93 | The transform writes a whole coordinate into the access. Only the access changes. |
| Sources.SourceAccess.Get | src/main/java/net/imglib2/realtransform/RealTransformRandomAccessible.java:100 | `sourceAccess.get()` returns the field's value at the access's current coordinate. |
| Long.Wrap | src/main/java/net/imglib2/realtransform/RealTransformRandomAccessible.java:69 | Point's `long` arithmetic. The result is a long and differs from the exact value by a multiple of 2^64. A value that is already a long is left unchanged. |
| Points.Origin | src/main/java/net/imglib2/realtransform/RealTransformRandomAccessible.java:78 | The position of a new `n`-dimensional Point has `n` coordinates, all zero. |
| Points.Moved | src/main/java/net/imglib2/realtransform/RealTransformRandomAccessible.java:63-67 | The position after a move has the same dimensionality and is always in long range. When nothing overflows, it is the exact sum. |
| Points.MoveBack | src/main/java/net/imglib2/realtransform/RealTransformRandomAccessible.java:63-67 | Moving by a distance and then by its Java negation returns exactly to the start position, even when the move overflows. |
| Scenarios.MutationIsolation | src/main/java/net/imglib2/realtransform/RealTransformRandomAccessible.java:45-52 | A cursor taken before the adapter's transform is edited reads through the old parameters. A cursor taken afterwards reads through the new ones. Both are read after the edit, at the same position. |
| Scenarios.CopyIndependence | src/main/java/net/imglib2/realtransform/RealTransformRandomAccessible.java:84-89 | After `copy()`, moving and reading the original leaves the copy's reading at the old position. Moving the copy the same way reads what the moved original read. Moving the original back reproduces the reading from before the move. |
| Scenarios.IdempotentRead | src/main/java/net/imglib2/realtransform/RealTransformRandomAccessible.java:96-101 | Two reads with no move in between return the same value. That value is the source at the transform of the position. |
| Scenarios.LazyMoves | src/main/java/net/imglib2/realtransform/RealTransformRandomAccessible.java:63-67 | After a read and then several moves, the source access still holds the coordinate the read wrote, so no transform was applied. The next read re-applies the transform at the new position. |
| Scenarios.SeparateCursors | src/main/java/net/imglib2/realtransform/RealTransformRandomAccessible.java:121-135 | Cursors from `randomAccess()` and `randomAccess(interval)` are separate. Moving one leaves the other at the origin. At the same position both read the same value, whatever bounds were passed. |
| Scenarios.IdentityScenario | src/main/java/net/imglib2/realtransform/RealTransformRandomAccessible.java:96-101 | With the identity transform over the field x + y, position (3, 4) reads 7. |
| Scenarios.IdentityStepScenario | src/main/java/net/imglib2/realtransform/RealTransformRandomAccessible.java:96-101 | With the identity transform over the field x + y, one step forward in x from (3, 4) reads 8. |
| Scenarios.TranslationScenario | src/main/java/net/imglib2/realtransform/RealTransformRandomAccessible.java:96-101 | With translation by (10, 0) over the field x + y, the origin reads 10. |

## Left out

- Floating point: `RealRandomAccess` coordinates are doubles. Here they are unbounded integers, and the transform is an integer affine map, so rounding is not modelled.
- Concrete transforms and sources: `RealTransform` implementations, interpolators and image containers are not part of this model. One affine transform class and one function-valued source stand for them, with only the operations the adapter calls.
- The superclass `RealTransformRealRandomAccessible` is not part of this model. Only the two fields the adapter uses from it, `source` and `transformToSource`, are modelled.
- Point's other overloads are not modelled: the `int[]` and `Localizable` forms of `move` and `setPosition`, `localize`, and the `int` and `double` getters. The `int` reads narrow each long with an `(int)` cast. The `double` reads convert each long to a double, and the transform at line 93 reads the cursor through them. The model's transform reads the exact long.
- The inner cursor's hidden reference to its enclosing adapter is not modelled. `copy()` at line 106 binds the enclosing adapter again, but no cursor method reads the adapter's fields after the no-argument constructor (lines 78-80).
- Grid.RealTransformRandomAccessible.constructor: requires that the source's dimensionality equal the transform's target dimensionality. The shown constructor passes both objects to the superclass, which is not modelled. The model requires the equality at construction.
- Grid.RealTransformRandomAccess.GetLongPosition, Grid.RealTransformRandomAccess.Fwd, Grid.RealTransformRandomAccess.Bck, Grid.RealTransformRandomAccess.Move, Grid.RealTransformRandomAccess.SetCoordinate, Grid.RealTransformRandomAccess.MoveBy, Grid.RealTransformRandomAccess.SetPosition: require a dimension index below `n` and, for the array forms, an array of at least `n` entries. Point's `ArrayIndexOutOfBoundsException` is not modelled. Nor is the partial update that `move(long[])` and `setPosition(long[])` leave behind when given an array shorter than `n`.
- Sources.Source.RealRandomAccess: the initial coordinate of a new access is left unspecified. It never matters, because the cursor writes the coordinate before every read.
- Generic type parameters, the unchecked casts at lines 80 and 88, and annotations have nothing to verify.
- Thread confinement is not modelled, and the model is sequential. One cursor per thread is a concurrency convention of the library.
- Subclass overrides of `randomAccess(Interval)` are not modelled. Only the default, which ignores the bounds, is.
