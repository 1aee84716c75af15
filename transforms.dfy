/**
 * Integer affine maps from an N-dimensional grid space to an M-dimensional
 * source space: y = A x + t with A an M x N matrix. They stand in for the
 * coordinate transform the adapter is given; identity and translation,
 * the usual examples, are special cases.
 */
module Affine {
  import Points

  /** The dot product of `row` and `x`, accumulated from the left. */
  function Dot(row: seq<int>, x: seq<int>): int
    requires |row| == |x|
  {
    if |row| == 0 then 0
    else Dot(row[..|row| - 1], x[..|x| - 1]) + row[|row| - 1] * x[|x| - 1]
  }

  /** `matrix` has one row per entry of `offset`, each with `n` columns. */
  predicate Shaped(matrix: seq<seq<int>>, offset: seq<int>, n: nat) {
    |matrix| == |offset| && forall i :: 0 <= i < |matrix| ==> |matrix[i]| == n
  }

  /** The image of `x` under the map with this matrix and offset. */
  function Map(matrix: seq<seq<int>>, offset: seq<int>, x: seq<int>): (y: seq<int>)
    requires Shaped(matrix, offset, |x|)
    ensures |y| == |offset|
  {
    seq(|offset|, i requires 0 <= i < |offset| => Dot(matrix[i], x) + offset[i])
  }

  /** The `k`-th unit row of length `n`. */
  function Unit(n: nat, k: nat): (row: seq<int>)
    ensures |row| == n
  {
    seq(n, i => if i == k then 1 else 0)
  }

  /** The zero row of length `n`. */
  function Zero(n: nat): (row: seq<int>)
    ensures |row| == n && forall i :: 0 <= i < n ==> row[i] == 0
  {
    seq(n, _ => 0)
  }

  /** The `n` x `n` identity matrix. */
  function Identity(n: nat): (matrix: seq<seq<int>>)
    ensures |matrix| == n && forall i :: 0 <= i < n ==> matrix[i] == Unit(n, i)
  {
    seq(n, i requires 0 <= i < n => Unit(n, i))
  }

  /** A zero row has dot product zero with every coordinate. */
  lemma {:induction false} DotZero(x: seq<int>)
    ensures Dot(Zero(|x|), x) == 0
  {
    if |x| > 0 {
      assert Zero(|x|)[..|x| - 1] == Zero(|x| - 1);
      DotZero(x[..|x| - 1]);
    }
  }

  /** A unit row picks out one coordinate. */
  lemma {:induction false} DotUnit(k: nat, x: seq<int>)
    requires k < |x|
    ensures Dot(Unit(|x|, k), x) == x[k]
  {
    var n := |x|;
    var x' := x[..n - 1];
    if k == n - 1 {
      assert Unit(n, k)[..n - 1] == Zero(n - 1);
      DotZero(x');
    } else {
      assert Unit(n, k)[..n - 1] == Unit(n - 1, k);
      DotUnit(k, x');
    }
  }

  /** With the identity matrix the map is the translation by `offset`. */
  lemma {:induction false} IdentityMap(x: seq<int>, offset: seq<int>)
    requires |offset| == |x|
    ensures Shaped(Identity(|x|), offset, |x|)
    ensures Map(Identity(|x|), offset, x) == Points.Sum(x, offset)
  {
    var y := Map(Identity(|x|), offset, x);
    forall i | 0 <= i < |x|
      ensures y[i] == x[i] + offset[i]
    {
      DotUnit(i, x);
    }
  }
}

/** The transform object: mutable parameters, fixed dimensionality. */
module Transforms {
  import Affine
  import Sources

  class AffineTransform {
    const numSourceDimensions: nat
    const numTargetDimensions: nat
    var matrix: seq<seq<int>>
    var offset: seq<int>

    ghost predicate Valid()
      reads this
    {
      |offset| == numTargetDimensions && Affine.Shaped(matrix, offset, numSourceDimensions)
    }

    /** Where this transform currently sends the grid coordinate `x`. */
    ghost function Eval(x: seq<int>): (y: seq<int>)
      reads this
      requires Valid() && |x| == numSourceDimensions
      ensures |y| == numTargetDimensions
    {
      Affine.Map(matrix, offset, x)
    }

    constructor (numSourceDimensions: nat, matrix: seq<seq<int>>, offset: seq<int>)
      requires Affine.Shaped(matrix, offset, numSourceDimensions)
      ensures Valid()
      ensures this.numSourceDimensions == numSourceDimensions && numTargetDimensions == |offset|
      ensures this.matrix == matrix && this.offset == offset
    {
      this.numSourceDimensions := numSourceDimensions;
      this.numTargetDimensions := |offset|;
      this.matrix := matrix;
      this.offset := offset;
    }

    /** Replaces the parameters in place, as a consumer that edits the transform does. */
    method Set(matrix: seq<seq<int>>, offset: seq<int>)
      requires Valid()
      requires |offset| == numTargetDimensions && Affine.Shaped(matrix, offset, numSourceDimensions)
      modifies this
      ensures Valid() && this.matrix == matrix && this.offset == offset
    {
      this.matrix := matrix;
      this.offset := offset;
    }

    /** Computes the image of the grid coordinate held in `x`, one target row at a time. */
    method Apply(x: array<int>) returns (y: seq<int>)
      requires Valid() && x.Length == numSourceDimensions
      ensures y == Eval(x[..])
    {
      ghost var xs := x[..];
      y := [];
      var i := 0;
      while i < |offset|
        invariant 0 <= i <= |offset|
        invariant |y| == i
        invariant forall k :: 0 <= k < i ==> y[k] == Affine.Dot(matrix[k], xs) + offset[k]
      {
        var row := matrix[i];
        var acc := 0;
        var j := 0;
        while j < |row|
          invariant 0 <= j <= |row|
          invariant acc == Affine.Dot(row[..j], xs[..j])
        {
          assert row[..j + 1][..j] == row[..j];
          assert xs[..j + 1][..j] == xs[..j];
          acc := acc + row[j] * x[j];
          j := j + 1;
        }
        assert row[..j] == row && xs[..j] == xs;
        y := y + [acc + offset[i]];
        i := i + 1;
      }
    }

    /** Writes the image of `x` into the coordinate of `target`. */
    method ApplyTo<T>(x: array<int>, target: Sources.SourceAccess<T>)
      requires Valid() && x.Length == numSourceDimensions
      requires target.numDimensions == numTargetDimensions
      modifies target
      ensures target.Valid() && target.position == Eval(x[..])
    {
      var y := Apply(x);
      target.SetPosition(y);
    }

    /** An independent transform with the same parameters. */
    method Copy() returns (r: AffineTransform)
      requires Valid()
      ensures fresh(r) && r.Valid()
      ensures r.numSourceDimensions == numSourceDimensions && r.numTargetDimensions == numTargetDimensions
      ensures r.matrix == matrix && r.offset == offset
    {
      r := new AffineTransform(numSourceDimensions, matrix, offset);
    }
  }
}
