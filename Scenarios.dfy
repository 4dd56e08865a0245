/**
 * Worked examples of single document updates on a 1000 by 500 scene.
 */
module Scenarios {
  import opened Common
  import opened Geometry
  import opened Entities
  import opened Angles

  /**
   * A token of 2 by 1 cells at (100, 100) on a 50-pixel grid, with no
   * rendered object, turned a quarter clockwise: its centre (150, 125)
   * goes to (375, 150), its 100 by 50 pixel box becomes 50 by 100 with
   * top-left (350, 100), its cell size becomes 1 by 2 and its rotation 90.
   */
  lemma TokenQuarterTurn(d: Doc, c: Canvas)
    requires d == TokenDoc("t", 100.0, 100.0, Some(2.0), Some(1.0), None, None)
    requires c == Canvas(1000.0, 500.0, 50.0)
    ensures var u := UpdateFor(d, c, 90);
            && u.fields.Keys == {"width", "height", "x", "y", "rotation"}
            && u.fields["x"] == Num(350.0) && u.fields["y"] == Num(100.0)
            && u.fields["width"] == Num(1.0) && u.fields["height"] == Num(2.0)
            && u.fields["rotation"] == Num(90.0)
  {
    TokenFields(d, c);
    TokenPivot();
    QuarterAngle();
    QuarterStep();
    assert OrZero(d.rotation) == 0.0;
    TokenBoxFields(d, c);
    TokenMap();
  }

  lemma TokenFields(d: Doc, c: Canvas)
    requires d.TokenDoc?
    ensures UpdateFor(d, c, 90).fields == BoxFields(d, c, 90)
  {
  }

  lemma TokenPivot()
    ensures PixelExtent(TokenDoc("t", 100.0, 100.0, Some(2.0), Some(1.0), None, None), 50.0) == Extent(100.0, 50.0)
    ensures PivotBox(Point(100.0, 100.0), Extent(100.0, 50.0), Canvas(1000.0, 500.0, 50.0), 90) == Point(350.0, 100.0)
  {
    QuarterStep();
  }

  lemma QuarterStep()
    ensures Transform(Point(150.0, 125.0), 1000.0, 500.0, 90) == Point(375.0, 150.0)
    ensures IsSwap(90)
    ensures TurnedExtent(Extent(100.0, 50.0), 90) == Extent(50.0, 100.0)
  {
  }

  lemma QuarterAngle()
    ensures AngleAfter(OrZero(None), 90) == 90.0
  {
    AngleAfterSmall(0.0, 90);
  }

  lemma TokenBoxFields(d: Doc, c: Canvas)
    requires d == TokenDoc("t", 100.0, 100.0, Some(2.0), Some(1.0), None, None)
    requires PivotBox(Point(d.x, d.y), PixelExtent(d, c.gridSize), c, 90) == Point(350.0, 100.0)
    requires AngleAfter(OrZero(d.rotation), 90) == 90.0
    requires IsSwap(90)
    ensures BoxFields(d, c, 90) == map["width" := Num(1.0), "height" := Num(2.0)]
                                   + map["x" := Num(350.0), "y" := Num(100.0), "rotation" := Num(90.0)]
  {
  }

  lemma TokenMap()
    ensures var m := map["width" := Num(1.0), "height" := Num(2.0)]
                     + map["x" := Num(350.0), "y" := Num(100.0), "rotation" := Num(90.0)];
            && m.Keys == {"width", "height", "x", "y", "rotation"}
            && m["x"] == Num(350.0) && m["y"] == Num(100.0)
            && m["width"] == Num(1.0) && m["height"] == Num(2.0)
            && m["rotation"] == Num(90.0)
  {
  }

  /**
   * A tile of 100 by 50 pixels at the origin, on a step of 450 degrees:
   * no point moves, but the box is re-centred with swapped extent, so its
   * top-left goes to (25, -25), its size fields are exchanged and its
   * rotation becomes 90.
   */
  lemma TileStrayStep(d: Doc, c: Canvas, degrees: int)
    requires d == TileDoc("tile", 0.0, 0.0, Some(100.0), Some(50.0), None)
    requires c == Canvas(1000.0, 500.0, 50.0)
    requires degrees == 450
    ensures var u := UpdateFor(d, c, degrees);
            && u.fields["x"] == Num(25.0) && u.fields["y"] == Num(-25.0)
            && u.fields["width"] == Num(50.0) && u.fields["height"] == Num(100.0)
            && u.fields["rotation"] == Num(90.0)
  {
    assert TurnOf(degrees) == NoTurn && IsSwap(degrees);
    assert PixelExtent(d, c.gridSize) == Extent(100.0, 50.0);
    StrayStepShiftsBox(d, c, degrees);
    BoxFieldsSpec(d, c, degrees);
    AngleAfterOneTurn(0.0, degrees);
  }

  /** A wall from (0, 0) to (100, 0), turned a quarter counter-clockwise,
   *  runs from (0, 1000) to (0, 900). */
  lemma WallQuarterTurnBack()
    ensures UpdateFor(WallDoc("w", Point(0.0, 0.0), Point(100.0, 0.0)), Canvas(1000.0, 500.0, 50.0), -90).fields
            == map["c" := Coords([0.0, 1000.0, 0.0, 900.0])]
  {
  }
}
