/**
 * The embedded documents a scene owns, and the update record the rotation
 * builds for each of them: walls move both endpoints, lights, sounds and
 * notes move their point, tokens, tiles and drawings pivot their box on its
 * centre, and templates move their origin and turn their direction.
 */
module Entities {
  import opened Common
  import opened Geometry
  import opened Angles

  /** The embedded document types the rotation visits. */
  datatype Kind = Token | Tile | Wall | AmbientLight | AmbientSound | Note | Drawing | MeasuredTemplate

  /** The order in which the rotation visits the document types. */
  const EmbeddedKinds: seq<Kind> :=
    [Token, Tile, Wall, AmbientLight, AmbientSound, Note, Drawing, MeasuredTemplate]

  /** The key of a document type's collection in the scene update. */
  function CollectionKey(k: Kind): (key: string)
    ensures key in {"tokens", "tiles", "walls", "lights", "sounds", "notes", "drawings", "templates"}
  {
    match k
    case Token => "tokens"
    case Tile => "tiles"
    case Wall => "walls"
    case AmbientLight => "lights"
    case AmbientSound => "sounds"
    case Note => "notes"
    case Drawing => "drawings"
    case MeasuredTemplate => "templates"
  }

  /** Distinct document types are written under distinct keys. */
  lemma CollectionKeyInjective(k1: Kind, k2: Kind)
    ensures CollectionKey(k1) == CollectionKey(k2) ==> k1 == k2
  {
  }

  /** Every document type is visited exactly once, at its own position. */
  lemma EmbeddedKindsComplete(k: Kind)
    ensures k in EmbeddedKinds
    ensures forall i, j :: 0 <= i < j < |EmbeddedKinds| ==> EmbeddedKinds[i] != EmbeddedKinds[j]
  {
  }

  /** The pixel size a token's placeable object was rendered at. */
  datatype Extent = Extent(w: real, h: real)

  /**
   * The fields of each document type that the rotation reads. A field that
   * may be `undefined` is an `Option`; a wall's `c` array is its two
   * endpoints; `rendered` is the token's `doc.object` extent, absent when
   * the token has no placeable object.
   */
  datatype Doc =
    | TokenDoc(id: string, x: real, y: real, width: Option<real>, height: Option<real>,
               rotation: Option<real>, rendered: Option<Extent>)
    | TileDoc(id: string, x: real, y: real, width: Option<real>, height: Option<real>, rotation: Option<real>)
    | DrawingDoc(id: string, x: real, y: real, shapeWidth: Option<real>, shapeHeight: Option<real>,
                 rotation: Option<real>)
    | WallDoc(id: string, a: Point, b: Point)
    | LightDoc(id: string, x: real, y: real, configRotation: Option<real>)
    | SoundDoc(id: string, x: real, y: real)
    | NoteDoc(id: string, x: real, y: real)
    | TemplateDoc(id: string, x: real, y: real, direction: real)

  function KindOf(d: Doc): Kind {
    match d
    case TokenDoc(_, _, _, _, _, _, _) => Token
    case TileDoc(_, _, _, _, _, _) => Tile
    case DrawingDoc(_, _, _, _, _, _) => Drawing
    case WallDoc(_, _, _) => Wall
    case LightDoc(_, _, _, _) => AmbientLight
    case SoundDoc(_, _, _) => AmbientSound
    case NoteDoc(_, _, _) => Note
    case TemplateDoc(_, _, _, _) => MeasuredTemplate
  }

  predicate IsBox(d: Doc) {
    d.TokenDoc? || d.TileDoc? || d.DrawingDoc?
  }

  /** A value written into an update record; `Missing` is a copied `undefined`. */
  datatype FieldValue = Num(real) | Missing | Coords(seq<real>)

  /** One entry of a collection's update list: `{ _id, ...fields }`. */
  datatype DocUpdate = DocUpdate(id: string, fields: map<string, FieldValue>)

  function OptionalNum(o: Option<real>): (v: FieldValue)
    ensures o.None? <==> v == Missing
    ensures o.Some? ==> v == Num(o.value)
  {
    if o.Some? then Num(o.value) else Missing
  }

  /** What the rotation reads from the scene besides the document itself. */
  datatype Canvas = Canvas(width: real, height: real, gridSize: real)

  /**
   * The pixel extent of a box-like document: a token uses its rendered size
   * when both sides are non-zero and its size in grid cells times the grid
   * size otherwise; a tile uses its width and height, a drawing its shape's;
   * a missing side counts as zero.
   */
  function PixelExtent(d: Doc, gridSize: real): (e: Extent)
    requires IsBox(d)
    ensures d.TokenDoc? && d.rendered.Some? && d.rendered.value.w != 0.0 && d.rendered.value.h != 0.0 ==>
              e == d.rendered.value
    ensures d.TokenDoc? && !(d.rendered.Some? && d.rendered.value.w != 0.0 && d.rendered.value.h != 0.0) ==>
              e == Extent(OrZero(d.width) * gridSize, OrZero(d.height) * gridSize)
    ensures d.TileDoc? ==> e == Extent(OrZero(d.width), OrZero(d.height))
    ensures d.DrawingDoc? ==> e == Extent(OrZero(d.shapeWidth), OrZero(d.shapeHeight))
  {
    match d
    case TokenDoc(_, _, _, width, height, _, rendered) =>
      if rendered.Some? && rendered.value.w != 0.0 && rendered.value.h != 0.0 then rendered.value
      else Extent(OrZero(width) * gridSize, OrZero(height) * gridSize)
    case TileDoc(_, _, _, width, height, _) => Extent(OrZero(width), OrZero(height))
    case DrawingDoc(_, _, _, shapeWidth, shapeHeight, _) => Extent(OrZero(shapeWidth), OrZero(shapeHeight))
  }

  /** The extent after the step: its sides exchange on a quarter step. */
  function TurnedExtent(e: Extent, degrees: int): (r: Extent)
    ensures IsSwap(degrees) ==> r.w == e.h && r.h == e.w
    ensures !IsSwap(degrees) ==> r == e
  {
    if IsSwap(degrees) then Extent(e.h, e.w) else e
  }

  function Centre(topLeft: Point, e: Extent): Point {
    Point(topLeft.x + e.w / 2.0, topLeft.y + e.h / 2.0)
  }

  /**
   * The new top-left corner of a box: the old centre is transformed, and the
   * box of turned extent is centred on it again.
   */
  function PivotBox(topLeft: Point, e: Extent, c: Canvas, degrees: int): (r: Point)
    ensures Centre(r, TurnedExtent(e, degrees)) == Transform(Centre(topLeft, e), c.width, c.height, degrees)
  {
    var centre := Transform(Centre(topLeft, e), c.width, c.height, degrees);
    var e' := TurnedExtent(e, degrees);
    Point(centre.x - e'.w / 2.0, centre.y - e'.h / 2.0)
  }

  predicate InBox(p: Point, topLeft: Point, e: Extent) {
    topLeft.x <= p.x <= topLeft.x + e.w && topLeft.y <= p.y <= topLeft.y + e.h
  }

  /**
   * A proper step carries every point of the old box into the pivoted box:
   * the update moves the box with the canvas, rather than only its centre.
   */
  lemma PivotCoversBox(p: Point, topLeft: Point, e: Extent, c: Canvas, degrees: int)
    requires TurnOf(degrees) != NoTurn
    requires InBox(p, topLeft, e)
    ensures InBox(Transform(p, c.width, c.height, degrees), PivotBox(topLeft, e, c, degrees), TurnedExtent(e, degrees))
  {
    TurnSwaps(degrees);
  }

  /**
   * Pivoting back by the opposite step on the rotated canvas restores the
   * box's top-left corner.
   */
  lemma PivotInverse(topLeft: Point, e: Extent, c: Canvas, degrees: int)
    requires TurnOf(degrees) != NoTurn
    ensures var c' := Canvas(NewWidth(c.width, c.height, degrees), NewHeight(c.width, c.height, degrees), c.gridSize);
            PivotBox(PivotBox(topLeft, e, c, degrees), TurnedExtent(e, degrees), c', -degrees) == topLeft
  {
    var c' := Canvas(NewWidth(c.width, c.height, degrees), NewHeight(c.width, c.height, degrees), c.gridSize);
    var q := PivotBox(topLeft, e, c, degrees);
    var e' := TurnedExtent(e, degrees);
    TurnSwaps(degrees);
    TurnSwaps(-degrees);
    assert TurnedExtent(e', -degrees) == e;
    TransformInverse(Centre(topLeft, e), c.width, c.height, degrees);
    assert Transform(Centre(q, e'), c'.width, c'.height, -degrees) == Centre(topLeft, e);
  }

  /** The fields of a point-like document after its point is transformed. */
  function MovedPoint(x: real, y: real, c: Canvas, degrees: int): (fields: map<string, FieldValue>)
    ensures fields.Keys == {"x", "y"}
    ensures var p := Transform(Point(x, y), c.width, c.height, degrees);
            fields["x"] == Num(p.x) && fields["y"] == Num(p.y)
  {
    var p := Transform(Point(x, y), c.width, c.height, degrees);
    map["x" := Num(p.x), "y" := Num(p.y)]
  }

  /**
   * The swapped size fields of a box-like document on a quarter step: the
   * stored width takes the old height and the other way round, copied as
   * they are (a missing side is written as `undefined`).
   */
  function SwappedSize(d: Doc): (fields: map<string, FieldValue>)
    requires IsBox(d)
  {
    match d
    case TokenDoc(_, _, _, width, height, _, _) => map["width" := OptionalNum(height), "height" := OptionalNum(width)]
    case TileDoc(_, _, _, width, height, _) => map["width" := OptionalNum(height), "height" := OptionalNum(width)]
    case DrawingDoc(_, _, _, shapeWidth, shapeHeight, _) =>
      map["shape.width" := OptionalNum(shapeHeight), "shape.height" := OptionalNum(shapeWidth)]
  }

  /** The update record of a box-like document. */
  function BoxFields(d: Doc, c: Canvas, degrees: int): (fields: map<string, FieldValue>)
    requires IsBox(d)
  {
    var topLeft := PivotBox(Point(d.x, d.y), PixelExtent(d, c.gridSize), c, degrees);
    var moved := map["x" := Num(topLeft.x), "y" := Num(topLeft.y),
                     "rotation" := Num(AngleAfter(OrZero(d.rotation), degrees))];
    if IsSwap(degrees) then SwappedSize(d) + moved else moved
  }

  /** The update record `{ _id: doc.id, ... }` the rotation pushes for `d`. */
  function UpdateFor(d: Doc, c: Canvas, degrees: int): (u: DocUpdate)
    ensures u.id == d.id
  {
    match d
    case WallDoc(id, a, b) =>
      var p1 := Transform(a, c.width, c.height, degrees);
      var p2 := Transform(b, c.width, c.height, degrees);
      DocUpdate(id, map["c" := Coords([p1.x, p1.y, p2.x, p2.y])])
    case LightDoc(id, x, y, configRotation) =>
      var moved := MovedPoint(x, y, c, degrees);
      if configRotation.Some? then
        DocUpdate(id, moved["config.rotation" := Num(AngleAfter(configRotation.value, degrees))])
      else DocUpdate(id, moved)
    case SoundDoc(id, x, y) => DocUpdate(id, MovedPoint(x, y, c, degrees))
    case NoteDoc(id, x, y) => DocUpdate(id, MovedPoint(x, y, c, degrees))
    case TemplateDoc(id, x, y, direction) =>
      DocUpdate(id, MovedPoint(x, y, c, degrees)["direction" := Num(AngleAfter(direction, degrees))])
    case _ => DocUpdate(d.id, BoxFields(d, c, degrees))
  }

  /** A wall's `c` becomes its two transformed endpoints, in the same order. */
  lemma WallEndpoints(d: Doc, c: Canvas, degrees: int)
    requires d.WallDoc?
    ensures var u := UpdateFor(d, c, degrees);
            var p1, p2 := Transform(d.a, c.width, c.height, degrees), Transform(d.b, c.width, c.height, degrees);
            u.fields.Keys == {"c"} && u.fields["c"] == Coords([p1.x, p1.y, p2.x, p2.y])
  {
  }

  /**
   * A light, sound or note moves its point; only a light that has a cone
   * rotation gets a `config.rotation`, turned by the step.
   */
  lemma PointLikeFields(d: Doc, c: Canvas, degrees: int)
    requires d.LightDoc? || d.SoundDoc? || d.NoteDoc?
    ensures var u := UpdateFor(d, c, degrees);
            var p := Transform(Point(d.x, d.y), c.width, c.height, degrees);
            && u.fields["x"] == Num(p.x) && u.fields["y"] == Num(p.y)
            && ("config.rotation" in u.fields <==> d.LightDoc? && d.configRotation.Some?)
            && (d.LightDoc? && d.configRotation.Some? ==>
                  u.fields["config.rotation"] == Num(AngleAfter(d.configRotation.value, degrees)))
            && u.fields.Keys <= {"x", "y", "config.rotation"}
  {
  }

  /** A template moves its origin and turns its direction by the step. */
  lemma TemplateFields(d: Doc, c: Canvas, degrees: int)
    requires d.TemplateDoc?
    ensures var u := UpdateFor(d, c, degrees);
            var p := Transform(Point(d.x, d.y), c.width, c.height, degrees);
            && u.fields.Keys == {"x", "y", "direction"}
            && u.fields["x"] == Num(p.x) && u.fields["y"] == Num(p.y)
            && u.fields["direction"] == Num(AngleAfter(d.direction, degrees))
  {
  }

  /**
   * A multiple of 90 that selects no branch of the transform but still
   * swaps the axes (450, say) keeps the box's centre while exchanging its
   * extent, so the top-left of a non-square box shifts; the rotation still
   * turns by the step.
   */
  lemma StrayStepShiftsBox(d: Doc, c: Canvas, degrees: int)
    requires IsBox(d) && TurnOf(degrees) == NoTurn && IsSwap(degrees)
    ensures var e := PixelExtent(d, c.gridSize);
            var u := UpdateFor(d, c, degrees);
            && u.fields["x"] == Num(d.x + (e.w - e.h) / 2.0)
            && u.fields["y"] == Num(d.y + (e.h - e.w) / 2.0)
            && u.fields["rotation"] == Num(AngleAfter(OrZero(d.rotation), degrees))
  {
    var e := PixelExtent(d, c.gridSize);
    var topLeft := PivotBox(Point(d.x, d.y), e, c, degrees);
    assert topLeft == Point(d.x + (e.w - e.h) / 2.0, d.y + (e.h - e.w) / 2.0);
  }

  /**
   * A box-like document keeps its centre under the transform: its new
   * top-left plus half the turned extent is the transformed old centre. Its
   * rotation turns by the step, a missing rotation counting as zero. On a
   * quarter step its stored size fields are exchanged and exactly those
   * fields are written besides position and rotation; on any other step
   * they are not written.
   */
  lemma BoxFieldsSpec(d: Doc, c: Canvas, degrees: int)
    requires IsBox(d)
    ensures var u := UpdateFor(d, c, degrees);
            var e := PixelExtent(d, c.gridSize);
            var centre := Transform(Centre(Point(d.x, d.y), e), c.width, c.height, degrees);
            && "x" in u.fields && "y" in u.fields
            && (exists nx, ny :: u.fields["x"] == Num(nx) && u.fields["y"] == Num(ny)
                  && Centre(Point(nx, ny), TurnedExtent(e, degrees)) == centre)
            && u.fields["rotation"] == Num(AngleAfter(OrZero(d.rotation), degrees))
            && (IsSwap(degrees) && !d.DrawingDoc? ==>
                  u.fields["width"] == OptionalNum(d.height) && u.fields["height"] == OptionalNum(d.width))
            && (IsSwap(degrees) && d.DrawingDoc? ==>
                  u.fields["shape.width"] == OptionalNum(d.shapeHeight)
                  && u.fields["shape.height"] == OptionalNum(d.shapeWidth))
            && (!IsSwap(degrees) ==> u.fields.Keys == {"x", "y", "rotation"})
            && (IsSwap(degrees) && !d.DrawingDoc? ==>
                  u.fields.Keys == {"x", "y", "rotation", "width", "height"})
            && (IsSwap(degrees) && d.DrawingDoc? ==>
                  u.fields.Keys == {"x", "y", "rotation", "shape.width", "shape.height"})
  {
    BoxFieldKeys(d, c, degrees);
    var u := UpdateFor(d, c, degrees);
    var topLeft := PivotBox(Point(d.x, d.y), PixelExtent(d, c.gridSize), c, degrees);
    assert u.fields["x"] == Num(topLeft.x) && u.fields["y"] == Num(topLeft.y);
  }

  /** The set of fields a box-like document's update writes, by step. */
  lemma BoxFieldKeys(d: Doc, c: Canvas, degrees: int)
    requires IsBox(d)
    ensures var keys := UpdateFor(d, c, degrees).fields.Keys;
            && (!IsSwap(degrees) ==> keys == {"x", "y", "rotation"})
            && (IsSwap(degrees) && !d.DrawingDoc? ==> keys == {"x", "y", "rotation", "width", "height"})
            && (IsSwap(degrees) && d.DrawingDoc? ==> keys == {"x", "y", "rotation", "shape.width", "shape.height"})
  {
  }
}
