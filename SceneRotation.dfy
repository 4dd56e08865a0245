/**
 * `SceneRotator.rotate`: the single update a rotation step commits to the
 * scene. The step is rejected unless it is a multiple of 90 degrees; then
 * the canvas size and background offset turn with the step, every embedded
 * document gets an update record, the background and foreground images are
 * replaced by rotated variants where the image host provides them, and a
 * hexagonal grid exchanges rows and columns.
 */
module SceneRotation {
  import opened Common
  import opened Geometry
  import opened Entities
  import opened ImageNames

  datatype Background = Background(src: string, offsetX: Option<real>, offsetY: Option<real>)

  /** `grid.type` is the host's grid-type code: 2 and 3 are hexagonal rows
   *  (odd, even), 4 and 5 hexagonal columns (odd, even). */
  datatype Grid = Grid(gridType: int, size: real)

  /** The scene as the rotation reads it; a document type missing from
   *  `embedded` has an empty collection. */
  datatype Scene = Scene(width: real, height: real, background: Background, foreground: string,
                         grid: Grid, embedded: map<Kind, seq<Doc>>)
  {
    /** `scene.getEmbeddedCollection(type)` */
    function Collection(k: Kind): seq<Doc> {
      if k in embedded then embedded[k] else []
    }

    function Canvas(): Canvas {
      Entities.Canvas(width, height, grid.size)
    }

    /** Every collection holds documents of its own type, as the host's
     *  `getEmbeddedCollection(type)` returns them. */
    predicate Valid() {
      forall k, d :: k in embedded && d in embedded[k] ==> KindOf(d) == k
    }
  }

  /** A value of the update object, by the kind of field it is written to. */
  datatype SceneValue = Number(real) | Whole(int) | Text(string) | Records(records: seq<DocUpdate>)

  /** The fields of the update object; `Key` gives the dotted path each is
   *  written under. */
  datatype Field =
    | Width | Height | OffsetX | OffsetY
    | Embedded(kind: Kind)
    | BackgroundSrc | ForegroundSrc | GridType

  function Key(f: Field): string {
    match f
    case Width => "width"
    case Height => "height"
    case OffsetX => "background.offsetX"
    case OffsetY => "background.offsetY"
    case Embedded(k) => CollectionKey(k)
    case BackgroundSrc => "background.src"
    case ForegroundSrc => "foreground"
    case GridType => "grid.type"
  }

  /** Distinct fields are written under distinct paths. */
  lemma KeyInjective(f: Field, g: Field)
    requires Key(f) == Key(g)
    ensures f == g
  {
    if f.Embedded? && g.Embedded? {
      CollectionKeyInjective(f.kind, g.kind);
    }
  }

  /** The position of a document type in the visiting order. */
  function Position(k: Kind): (i: nat)
    ensures i < |EmbeddedKinds| && EmbeddedKinds[i] == k
  {
    match k
    case Token => 0
    case Tile => 1
    case Wall => 2
    case AmbientLight => 3
    case AmbientSound => 4
    case Note => 5
    case Drawing => 6
    case MeasuredTemplate => 7
  }

  /**
   * The hex grid remap: rows become columns and columns rows, keeping the
   * odd/even offset (2 <-> 4, 3 <-> 5).
   */
  function HexSwap(t: int): (r: int)
    requires 2 <= t <= 5
    ensures 2 <= r <= 5
    ensures (t <= 3) != (r <= 3)
    ensures r % 2 == t % 2
  {
    if t == 2 then 4
    else if t == 3 then 5
    else if t == 4 then 2
    else 3
  }

  /** Two remaps, as two quarter steps perform them, restore the grid type. */
  lemma HexSwapInvolution(t: int)
    requires 2 <= t <= 5
    ensures HexSwap(HexSwap(t)) == t
  {
  }

  /** The updates of a collection, one per document, in collection order. */
  function DocUpdates(docs: seq<Doc>, c: Canvas, degrees: int): (us: seq<DocUpdate>)
    ensures |us| == |docs|
    ensures forall n :: 0 <= n < |docs| ==> us[n] == UpdateFor(docs[n], c, degrees)
  {
    if docs == [] then []
    else DocUpdates(docs[..|docs| - 1], c, degrees) + [UpdateFor(docs[|docs| - 1], c, degrees)]
  }

  /** The canvas size and background offset after the step. */
  function SceneFields(s: Scene, degrees: int): map<Field, SceneValue> {
    var off := RotateOffset(Point(OrZero(s.background.offsetX), OrZero(s.background.offsetY)), degrees);
    map[Width := Number(NewWidth(s.width, s.height, degrees)),
        Height := Number(NewHeight(s.width, s.height, degrees)),
        OffsetX := Number(off.x),
        OffsetY := Number(off.y)]
  }

  /** The entry of a document type's collection: its update list. */
  function Entries(s: Scene, degrees: int): Kind -> SceneValue {
    k => Records(DocUpdates(s.Collection(k), s.Canvas(), degrees))
  }

  /** The entries of the non-empty collections among the first `upTo`
   *  document types of the visiting order. */
  function CollectionFields(s: Scene, entry: Kind -> SceneValue, upTo: nat): (m: map<Field, SceneValue>)
    requires upTo <= |EmbeddedKinds|
    ensures forall f :: f in m ==> f.Embedded?
  {
    if upTo == 0 then map[]
    else
      var k := EmbeddedKinds[upTo - 1];
      var earlier := CollectionFields(s, entry, upTo - 1);
      if |s.Collection(k)| > 0 then earlier[Embedded(k) := entry(k)] else earlier
  }

  /**
   * After the first `upTo` document types, exactly the non-empty collections
   * among them have an entry.
   */
  lemma {:induction false} CollectionFieldsSpec(s: Scene, entry: Kind -> SceneValue, upTo: nat, k: Kind)
    requires upTo <= |EmbeddedKinds|
    ensures Embedded(k) in CollectionFields(s, entry, upTo) <==> Position(k) < upTo && |s.Collection(k)| > 0
    ensures Embedded(k) in CollectionFields(s, entry, upTo) ==> CollectionFields(s, entry, upTo)[Embedded(k)] == entry(k)
  {
    if upTo > 0 {
      CollectionFieldsSpec(s, entry, upTo - 1, k);
      var k' := EmbeddedKinds[upTo - 1];
      PositionOf(upTo - 1);
      assert k' == k <==> Position(k) == upTo - 1;
    }
  }

  /** Each position of the visiting order holds the type at that position. */
  lemma PositionOf(i: nat)
    requires i < |EmbeddedKinds|
    ensures Position(EmbeddedKinds[i]) == i
  {
  }

  /** A returned path is written only when it is a non-empty string. */
  function Written(r: Option<string>): (w: Option<string>)
    ensures w.Some? <==> r.Some? && r.value != ""
    ensures w.Some? ==> w == r
  {
    if r.Some? && r.value != "" then r else None
  }

  function PathField(key: Field, path: Option<string>): (m: map<Field, SceneValue>)
    ensures m.Keys <= {key}
  {
    if path.Some? then map[key := Text(path.value)] else map[]
  }

  /** The outcome of rotating one image, or no path when it has none. */
  function ImageOutcome(path: string, degrees: int, mime: string, host: ImageHost): (r: Result<Option<string>>)
    ensures path == "" ==> r == Ok(None)
  {
    if path != "" then RotateAndUpload(path, degrees, mime, host) else Ok(None)
  }

  /**
   * The image paths written: the background (as JPEG) first, then the
   * foreground (as PNG). A failure abandons the image step, so a failed
   * background leaves the foreground unrotated too.
   */
  function ImageFields(bg: Result<Option<string>>, fg: Result<Option<string>>): (m: map<Field, SceneValue>)
    ensures m.Keys <= {BackgroundSrc, ForegroundSrc}
  {
    if bg.Err? then map[]
    else if fg.Err? then PathField(BackgroundSrc, Written(bg.value))
    else PathField(BackgroundSrc, Written(bg.value)) + PathField(ForegroundSrc, Written(fg.value))
  }

  function GridFields(s: Scene, degrees: int): (m: map<Field, SceneValue>)
    ensures m.Keys <= {GridType}
  {
    if 2 <= s.grid.gridType <= 5 && IsSwap(degrees) then map[GridType := Whole(HexSwap(s.grid.gridType))]
    else map[]
  }

  /** The whole update a valid step commits, given the outcomes of rotating
   *  the background and the foreground image. */
  function Plan(s: Scene, degrees: int, bg: Result<Option<string>>, fg: Result<Option<string>>): map<Field, SceneValue> {
    SceneFields(s, degrees) + CollectionFields(s, Entries(s, degrees), |EmbeddedKinds|)
      + ImageFields(bg, fg) + GridFields(s, degrees)
  }

  /**
   * The rotation step: `None` when the step is not a multiple of 90 (the
   * JavaScript returns before building anything), otherwise the update object,
   * which is the `Plan` of the scene. The image host's answers for the
   * background and the foreground are parameters.
   */
  method Rotate(scene: Scene, degrees: int, bgHost: ImageHost, fgHost: ImageHost)
    returns (result: Option<map<Field, SceneValue>>)
    requires scene.Valid()
    ensures result.None? <==> degrees % 90 != 0
    ensures result.Some? ==> result.value == Plan(scene, degrees,
                                                  ImageOutcome(scene.background.src, degrees, "image/jpeg", bgHost),
                                                  ImageOutcome(scene.foreground, degrees, "image/png", fgHost))
  {
    if degrees % 90 != 0 {
      return None;
    }
    var isSwap := Abs(degrees) % 180 != 0;
    var updates: map<Field, SceneValue> := map[];
    updates := updates[Width := Number(if isSwap then scene.height else scene.width)];
    updates := updates[Height := Number(if isSwap then scene.width else scene.height)];
    var off := RotateOffset(Point(OrZero(scene.background.offsetX), OrZero(scene.background.offsetY)), degrees);
    updates := updates[OffsetX := Number(off.x)];
    updates := updates[OffsetY := Number(off.y)];
    assert updates == SceneFields(scene, degrees);

    var collections := CollectEmbedded(scene, degrees);
    updates := updates + collections;
    var images := RotateImages(scene, degrees, bgHost, fgHost);
    updates := updates + images;

    var gridType := scene.grid.gridType;
    if 2 <= gridType <= 5 && isSwap {
      updates := updates[GridType := Whole(HexSwap(gridType))];
    }
    return Some(updates);
  }

  /**
   * The loop over the document types: each non-empty collection gets the
   * list of its documents' update records.
   */
  method CollectEmbedded(scene: Scene, degrees: int) returns (updates: map<Field, SceneValue>)
    ensures updates == CollectionFields(scene, Entries(scene, degrees), |EmbeddedKinds|)
  {
    updates := map[];
    var i := 0;
    while i < |EmbeddedKinds|
      invariant 0 <= i <= |EmbeddedKinds|
      invariant updates == CollectionFields(scene, Entries(scene, degrees), i)
    {
      var kind := EmbeddedKinds[i];
      var collection := scene.Collection(kind);
      if |collection| > 0 {
        var docUpdates := UpdateCollection(collection, scene.Canvas(), degrees);
        if |docUpdates| > 0 {
          updates := updates[Embedded(kind) := Records(docUpdates)];
        }
      }
      i := i + 1;
    }
  }

  /** The loop over one collection, pushing one update per document. */
  method UpdateCollection(docs: seq<Doc>, c: Canvas, degrees: int) returns (docUpdates: seq<DocUpdate>)
    ensures docUpdates == DocUpdates(docs, c, degrees)
  {
    docUpdates := [];
    var j := 0;
    while j < |docs|
      invariant 0 <= j <= |docs|
      invariant docUpdates == DocUpdates(docs[..j], c, degrees)
    {
      docUpdates := docUpdates + [UpdateFor(docs[j], c, degrees)];
      j := j + 1;
    }
    assert docs[..j] == docs;
  }

  /**
   * The image step: the background, then the foreground. A failure ends the
   * step, as the `catch` of `rotate` does, but keeps a path already written.
   */
  method RotateImages(scene: Scene, degrees: int, bgHost: ImageHost, fgHost: ImageHost)
    returns (updates: map<Field, SceneValue>)
    ensures updates == ImageFields(ImageOutcome(scene.background.src, degrees, "image/jpeg", bgHost),
                                   ImageOutcome(scene.foreground, degrees, "image/png", fgHost))
  {
    ghost var bg := ImageOutcome(scene.background.src, degrees, "image/jpeg", bgHost);
    ghost var fg := ImageOutcome(scene.foreground, degrees, "image/png", fgHost);
    updates := map[];
    var failed := false;
    if scene.background.src != "" {
      var newBg := RotateAndUpload(scene.background.src, degrees, "image/jpeg", bgHost);
      assert newBg == bg;
      updates, failed := WritePath(updates, BackgroundSrc, newBg);
    }
    assert failed == bg.Err?;
    ghost var afterBg := updates;
    assert !failed ==> afterBg == PathField(BackgroundSrc, Written(bg.value));
    if !failed && scene.foreground != "" {
      var newFg := RotateAndUpload(scene.foreground, degrees, "image/png", fgHost);
      assert newFg == fg;
      updates, failed := WritePath(updates, ForegroundSrc, newFg);
    }
    ImageFieldsCases(bg, fg, afterBg, updates);
  }

  lemma ImageFieldsCases(bg: Result<Option<string>>, fg: Result<Option<string>>,
                         afterBg: map<Field, SceneValue>, updates: map<Field, SceneValue>)
    requires bg.Err? ==> afterBg == map[] && updates == afterBg
    requires bg.Ok? ==> afterBg == PathField(BackgroundSrc, Written(bg.value))
    requires bg.Ok? && fg.Err? ==> updates == afterBg
    requires bg.Ok? && fg.Ok? ==> updates == afterBg + PathField(ForegroundSrc, Written(fg.value))
    ensures updates == ImageFields(bg, fg)
  {
  }

  /** `if (newPath) updates[key] = newPath`, or the failure a thrown error is. */
  method WritePath(updates: map<Field, SceneValue>, key: Field, outcome: Result<Option<string>>)
    returns (updates': map<Field, SceneValue>, failed: bool)
    ensures failed <==> outcome.Err?
    ensures failed ==> updates' == updates
    ensures !failed ==> updates' == updates + PathField(key, Written(outcome.value))
  {
    updates', failed := updates, false;
    if outcome.Err? {
      failed := true;
    } else if outcome.value.Some? && outcome.value.value != "" {
      updates' := updates[key := Text(outcome.value.value)];
    }
  }

  /**
   * The canvas entries are always written: width and height are exchanged
   * exactly on a step that swaps the axes, and the background offset is
   * rotated as a vector, a missing component counting as zero.
   */
  lemma PlanCanvas(s: Scene, degrees: int, bg: Result<Option<string>>, fg: Result<Option<string>>)
    ensures var p := Plan(s, degrees, bg, fg);
            var off := RotateOffset(Point(OrZero(s.background.offsetX), OrZero(s.background.offsetY)), degrees);
            && Width in p && Height in p && OffsetX in p && OffsetY in p
            && (IsSwap(degrees) ==> p[Width] == Number(s.height) && p[Height] == Number(s.width))
            && (!IsSwap(degrees) ==> p[Width] == Number(s.width) && p[Height] == Number(s.height))
            && p[OffsetX] == Number(off.x) && p[OffsetY] == Number(off.y)
  {
    var sf := SceneFields(s, degrees);
    PlanKeepsSceneField(s, degrees, bg, fg, Width);
    PlanKeepsSceneField(s, degrees, bg, fg, Height);
    PlanKeepsSceneField(s, degrees, bg, fg, OffsetX);
    PlanKeepsSceneField(s, degrees, bg, fg, OffsetY);
  }

  /** No later group of updates overrides a dimension or offset. */
  lemma PlanKeepsSceneField(s: Scene, degrees: int, bg: Result<Option<string>>, fg: Result<Option<string>>, f: Field)
    requires f in SceneFields(s, degrees)
    ensures f in Plan(s, degrees, bg, fg) && Plan(s, degrees, bg, fg)[f] == SceneFields(s, degrees)[f]
  {
    var cf := CollectionFields(s, Entries(s, degrees), |EmbeddedKinds|);
    var imgs := ImageFields(bg, fg);
    var grid := GridFields(s, degrees);
    assert f !in cf && f !in imgs && f !in grid;
  }

  /**
   * A document type's collection gets an entry exactly when it is not
   * empty, and the entry lists one update per document, in order.
   */
  lemma PlanCollection(s: Scene, degrees: int, bg: Result<Option<string>>, fg: Result<Option<string>>, k: Kind)
    ensures var p := Plan(s, degrees, bg, fg);
            && (Embedded(k) in p <==> |s.Collection(k)| > 0)
            && (Embedded(k) in p ==> p[Embedded(k)] == Records(DocUpdates(s.Collection(k), s.Canvas(), degrees)))
  {
    CollectionFieldsSpec(s, Entries(s, degrees), |EmbeddedKinds|, k);
    var imgs := ImageFields(bg, fg);
    var grid := GridFields(s, degrees);
    assert Embedded(k) !in imgs && Embedded(k) !in grid;
    assert Embedded(k) !in SceneFields(s, degrees);
  }

  /**
   * In a well-formed scene each record of a collection's entry is built by
   * the branch for that collection's document type.
   */
  lemma PlanDispatch(s: Scene, degrees: int, bg: Result<Option<string>>, fg: Result<Option<string>>, k: Kind, n: nat)
    requires s.Valid()
    requires n < |s.Collection(k)|
    ensures var p := Plan(s, degrees, bg, fg);
            var d := s.Collection(k)[n];
            && Embedded(k) in p && p[Embedded(k)].Records? && n < |p[Embedded(k)].records|
            && KindOf(d) == k
            && p[Embedded(k)].records[n] == UpdateFor(d, s.Canvas(), degrees)
  {
    PlanCollection(s, degrees, bg, fg, k);
    assert s.Collection(k)[n] in s.embedded[k];
  }

  /**
   * The background path is written when rotating the background image
   * yields a non-empty path (never when the scene has none); the foreground
   * likewise, provided the background's rotation did not fail first.
   */
  lemma PlanImages(s: Scene, degrees: int, bg: Result<Option<string>>, fg: Result<Option<string>>)
    ensures var p := Plan(s, degrees, bg, fg);
            && (BackgroundSrc in p <==> bg.Ok? && bg.value.Some? && bg.value.value != "")
            && (BackgroundSrc in p ==> p[BackgroundSrc] == Text(bg.value.value))
            && (ForegroundSrc in p <==> bg.Ok? && fg.Ok? && fg.value.Some? && fg.value.value != "")
            && (ForegroundSrc in p ==> p[ForegroundSrc] == Text(fg.value.value))
  {
    var imgs := ImageFields(bg, fg);
    assert BackgroundSrc !in GridFields(s, degrees) && ForegroundSrc !in GridFields(s, degrees);
    assert BackgroundSrc in Plan(s, degrees, bg, fg) <==> BackgroundSrc in imgs;
    assert ForegroundSrc in Plan(s, degrees, bg, fg) <==> ForegroundSrc in imgs;
  }

  /**
   * The grid type is written only for a hexagonal grid on a step that swaps
   * the axes, and then rows and columns are exchanged.
   */
  lemma PlanGrid(s: Scene, degrees: int, bg: Result<Option<string>>, fg: Result<Option<string>>)
    ensures var p := Plan(s, degrees, bg, fg);
            && (GridType in p <==> 2 <= s.grid.gridType <= 5 && IsSwap(degrees))
            && (GridType in p ==> p[GridType] == Whole(HexSwap(s.grid.gridType)))
  {
    var earlier := SceneFields(s, degrees) + CollectionFields(s, Entries(s, degrees), |EmbeddedKinds|) + ImageFields(bg, fg);
    assert GridType !in earlier;
    assert Plan(s, degrees, bg, fg) == earlier + GridFields(s, degrees);
  }
}
