/** Pool geometry: from the shape and the three dimensions to the water
    volume, the tiled (ceramic) area and the floor area that takes thermal
    flooring. Circular and oval pools share one formula, with the width as
    the diameter. */
module Geometry {
  import opened Domain

  type PositiveReal = x: real | x > 0.0 witness 1.0

  /** `Math.PI`, known here only as a positive constant. */
  const PI: PositiveReal

  datatype Measures = Measures(volume: real, ceramicArea: real, thermalFloorArea: real)

  /** The floor area of the pool. */
  function FloorArea(shape: PoolShape, length: real, width: real): real
  {
    match shape
    case Rectangular => length * width
    case _ => PI * (width / 2.0) * (width / 2.0)
  }

  /** The perimeter of the floor, which the walls run along. */
  function Perimeter(shape: PoolShape, length: real, width: real): real
  {
    match shape
    case Rectangular => 2.0 * (length + width)
    case _ => PI * width
  }

  /** Volume, tiled area (floor and walls) and thermal-floor area (floor only).
      The thermal floor is the pool's floor and the volume is that floor
      times the depth. */
  function Measure(shape: PoolShape, length: real, width: real, depth: real): (r: Measures)
    ensures r.thermalFloorArea == FloorArea(shape, length, width)
    ensures r.volume == r.thermalFloorArea * depth
  {
    match shape
    case Rectangular =>
      var bottomArea := length * width;
      var wallsArea := 2.0 * (length * depth) + 2.0 * (width * depth);
      Measures(length * width * depth, bottomArea + wallsArea, length * width)
    case _ =>
      var radius := width / 2.0;
      var bottomArea := PI * radius * radius;
      var wallsArea := 2.0 * PI * radius * depth;
      Measures(PI * radius * radius * depth, bottomArea + wallsArea, bottomArea)
  }

  /** A pool whose three dimensions are above zero has a positive volume, and
      its tiled area (floor and walls) strictly exceeds its floor area, which
      is positive too. */
  lemma MeasurePositive(shape: PoolShape, length: real, width: real, depth: real)
    requires length > 0.0 && width > 0.0 && depth > 0.0
    ensures var g := Measure(shape, length, width, depth);
      0.0 < g.thermalFloorArea < g.ceramicArea && 0.0 < g.volume
  {
    if shape == Rectangular {
      PositiveProduct(length, width);
      PositiveProduct(length * width, depth);
      PositiveProduct(length, depth);
      PositiveProduct(width, depth);
    } else {
      var radius := width / 2.0;
      PositiveProduct(PI, radius);
      PositiveProduct(PI * radius, radius);
      PositiveProduct(PI * radius * radius, depth);
      PositiveProduct(2.0 * PI * radius, depth);
    }
  }

  lemma PositiveProduct(x: real, y: real)
    requires x > 0.0 && y > 0.0
    ensures x * y > 0.0
  {
  }

  /** Every shape is a straight prism, so its tiled area is the floor plus
      the walls, which run along the perimeter up to the depth. */
  lemma PrismMeasures(shape: PoolShape, length: real, width: real, depth: real)
    ensures Measure(shape, length, width, depth).ceramicArea
         == FloorArea(shape, length, width) + Perimeter(shape, length, width) * depth
  {
    if shape == Rectangular {
      RectangularPrism(length, width, depth);
    } else {
      RoundPrism(shape, length, width, depth);
    }
  }

  lemma RectangularPrism(length: real, width: real, depth: real)
    ensures var g := Measure(Rectangular, length, width, depth);
      g.volume == (length * width) * depth && g.thermalFloorArea == length * width
      && g.ceramicArea == length * width + (2.0 * (length + width)) * depth
  {
    WallsOfRectangle(length, width, depth);
  }

  lemma RoundPrism(shape: PoolShape, length: real, width: real, depth: real)
    requires shape != Rectangular
    ensures var g := Measure(shape, length, width, depth);
      var floor := PI * (width / 2.0) * (width / 2.0);
      g.volume == floor * depth && g.thermalFloorArea == floor && g.ceramicArea == floor + (PI * width) * depth
  {
    WallsOfCircle(width, depth);
  }

  lemma WallsOfRectangle(length: real, width: real, depth: real)
    ensures 2.0 * (length * depth) + 2.0 * (width * depth) == (2.0 * (length + width)) * depth
  {
  }

  lemma WallsOfCircle(width: real, depth: real)
    ensures 2.0 * PI * (width / 2.0) * depth == (PI * width) * depth
  {
  }

  /** Circular and oval pools get the same measures, and the length never
      enters them. */
  lemma RoundIgnoresLength(length1: real, length2: real, width: real, depth: real)
    ensures Measure(Circular, length1, width, depth) == Measure(Oval, length2, width, depth)
  {
  }

  /** A circular pool 4 m across and 2 m deep holds 8 pi cubic metres. */
  lemma CircularExample()
    ensures Measure(Circular, 0.0, 4.0, 2.0).volume == 8.0 * PI
  {
  }

  /** `Math.ceil`: the least integer not below x. */
  function Ceil(x: real): (n: int)
    ensures x <= n as real < x + 1.0
  {
    -((-x).Floor)
  }
}
