/** The training set container: a list of (x, y) points that only grows, and
    only by points of the dimensions fixed at construction. */
module DataClasses {
  import opened Wrappers

  /** One training example: an input vector and the observed output vector. */
  datatype DataPoint = DataPoint(x: seq<real>, y: seq<real>)

  /** A point has the given input and output dimensions. */
  predicate Fits(p: DataPoint, dimensionX: int, dimensionY: int) {
    |p.x| == dimensionX && |p.y| == dimensionY
  }

  class Dataset {
    var dataPoints: seq<DataPoint>
    const dimensionX: int
    const dimensionY: int

    /** Every stored point has the dataset's dimensions. */
    ghost predicate Valid()
      reads this
    {
      forall k :: 0 <= k < |dataPoints| ==> Fits(dataPoints[k], dimensionX, dimensionY)
    }

    /** An empty dataset of the given dimensions. */
    constructor (dimensionX: int, dimensionY: int)
      ensures this.dimensionX == dimensionX && this.dimensionY == dimensionY
      ensures dataPoints == []
      ensures Valid()
    {
      this.dimensionX := dimensionX;
      this.dimensionY := dimensionY;
      dataPoints := [];
    }

    /** Appends a point of the right dimensions; a point of other dimensions
        is refused with a DimensionalityException and the points stay as
        they were. */
    method PutDataPoint(newDataPoint: DataPoint) returns (r: Outcome)
      requires Valid()
      modifies this
      ensures Valid()
      ensures r.Fail? <==> !Fits(newDataPoint, dimensionX, dimensionY)
      ensures r.Fail? ==> r.error == DimensionalityException && dataPoints == old(dataPoints)
      ensures r.Pass? ==> dataPoints == old(dataPoints) + [newDataPoint]
    {
      if dimensionX != |newDataPoint.x| || dimensionY != |newDataPoint.y| {
        return Fail(DimensionalityException);
      }
      dataPoints := dataPoints + [newDataPoint];
      return Pass;
    }

    /** The stored points, in insertion order. */
    function GetDataPoints(): (r: seq<DataPoint>)
      reads this
      requires Valid()
      ensures forall k :: 0 <= k < |r| ==> Fits(r[k], GetDimensionX(), GetDimensionY())
    {
      dataPoints
    }

    /** The input dimension fixed at construction. */
    function GetDimensionX(): (r: int)
      ensures r == dimensionX
    {
      dimensionX
    }

    /** The output dimension fixed at construction. */
    function GetDimensionY(): (r: int)
      ensures r == dimensionY
    {
      dimensionY
    }
  }
}
