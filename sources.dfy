/**
 * The continuous source that the grid view samples, reduced to what the
 * adapter consumes: a field that can hand out sampling accesses, and an
 * access that holds a settable coordinate and reads the field there.
 * Coordinates are integers here; the field is a total function of them.
 */
module Sources {

  /** A sampling access into the field (the adapter's `sourceAccess`). */
  class SourceAccess<T> {
    const numDimensions: nat
    const sample: seq<int> -> T
    var position: seq<int>

    ghost predicate Valid()
      reads this
    {
      |position| == numDimensions
    }

    constructor (numDimensions: nat, sample: seq<int> -> T, position: seq<int>)
      requires |position| == numDimensions
      ensures Valid()
      ensures this.numDimensions == numDimensions && this.sample == sample && this.position == position
    {
      this.numDimensions := numDimensions;
      this.sample := sample;
      this.position := position;
    }

    /** Writes a whole coordinate; the transform's `apply` targets this. */
    method SetPosition(p: seq<int>)
      requires |p| == numDimensions
      modifies this
      ensures Valid() && position == p
    {
      position := p;
    }

    /** The field's value at the current coordinate. */
    method Get() returns (v: T)
      ensures v == sample(position)
    {
      v := sample(position);
    }

    /** An independent access into the same field at the same coordinate. */
    method Copy() returns (r: SourceAccess<T>)
      requires Valid()
      ensures fresh(r) && r.Valid()
      ensures r.numDimensions == numDimensions && r.sample == sample && r.position == position
    {
      r := new SourceAccess(numDimensions, sample, position);
    }
  }

  /** The continuous field itself (the adapter's `source`); it never changes. */
  class Source<T> {
    const numDimensions: nat
    const sample: seq<int> -> T

    constructor (numDimensions: nat, sample: seq<int> -> T)
      ensures this.numDimensions == numDimensions && this.sample == sample
    {
      this.numDimensions := numDimensions;
      this.sample := sample;
    }

    /** A new access into this field; where it starts is left open. */
    method RealRandomAccess() returns (a: SourceAccess<T>)
      ensures fresh(a) && a.Valid()
      ensures a.numDimensions == numDimensions && a.sample == sample
    {
      a := new SourceAccess(numDimensions, sample, seq(numDimensions, _ => 0));
    }
  }
}
