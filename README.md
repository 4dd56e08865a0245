# Scene rotation engine — a Dafny model

Geano's Scene Rotation turns a whole scene by a step of 90 degrees. It
rotates the canvas, every embedded document and the scene's images. This
project models the rotation engine of `scripts/main.js` and proves
properties of that model.

- `SceneRotator.rotate` builds one atomic `updates` object. It contains:
  - the canvas size, swapped on a quarter step;
  - the background offset, rotated as a vector;
  - one update record per embedded document (tokens, tiles, walls, ambient
    lights, ambient sounds, notes, drawings and measured templates);
  - the paths of the rotated background and foreground images;
  - the remapped hexagonal grid type.
- `ImageRotator.rotateAndUpload` derives where a rotated image variant
  lives and what it is called (`<dir>/rotated-images/<base>_rotation<angle>.<ext>`).
  It also reuses a listed file whose name ends with that target name.

Modules:

- `Common`: `Option`, `Result` and `OrZero` (JavaScript's `x || 0`).
- `Geometry`: the turn a step selects, the canvas swap, the point transform
  and the offset rotation.
- `Angles`: JavaScript's truncating `% 360` on entity angles, and the
  normalised angle stored in image names.
- `Decimal`: decimal rendering of an angle and `parseInt` of a digit run.
- `Entities`: document types, their fields, and the update record built
  for each document.
- `SceneRotation`: the `Rotate` method with its loops over document types
  and documents, the image step and the grid remap. All of it is proved
  against the specification function `Plan`.
- `ImageNames`: path splitting, extension stripping, the
  `^(.*)_rotation(-?\d+)$` match, the cache directory, the target name and
  the cache lookup.
- `ImageExamples`, `Scenarios`: worked examples proved about the model.

One might expect every angle to be normalised into [0, 360) and only
±90, ±180 and ±270 to be accepted as steps. The model follows the code
instead:

- Entity angles (`rotation`, `config.rotation`, `direction`) are
  `(angle + step) % 360` with JavaScript's remainder. They keep the sign of
  the sum and lie in (-360, 360). Only the angle in an image name is
  normalised into [0, 360).
- Every multiple of 90 passes the guard. On a step of 0, 360 or 450 the
  point transform and the offset rotation leave every point unchanged,
  because no branch matches. The rest still happens:
  - every entity angle turns by the step;
  - on 450 (and any step that swaps the axes) the canvas size is
    exchanged and a hex grid is remapped;
  - on 450, tokens, tiles and drawings keep their centre but exchange
    their extent and stored size, so the top-left of a non-square box
    moves (`StrayStepShiftsBox`, `TileStrayStep`).

The model also keeps four quirks of the image naming, each proved by a
lemma:

- The cache test is a bare suffix test. The variant of another image whose
  base name ends with this one's, `bigtemple_rotation90.jpg` for
  `temple_rotation90.jpg`, is taken as a hit (`SuffixHitOtherImage`).
- The extension is stripped before the name is derived, so `temple.png`
  and `temple.jpg` in one directory share their variants
  (`ExtensionIgnored`).
- `.` in the pattern does not match a line terminator. A variant whose base
  name holds a line break is not recognised as tagged, so rotating it again
  nests the tag and appends another `rotated-images` (`MatchNeedsOneLine`,
  `NestedTag`). `DeriveIdempotent` and `TwiceRotated` therefore require a
  base without line terminators.
- The cache directory is recognised by a bare suffix test too. A tagged
  file in `maps/old-rotated-images` is rotated in place there, since that
  name ends in `rotated-images`; no new cache directory is added
  (`OldCacheDirKept`).

## Model

| member | source | states |
|---|---|---|
| Geometry.TurnOf | scripts/main.js:92-101 | 90 and -270 turn clockwise, -90 and 270 counter-clockwise, +-180 is a half turn; each case holds exactly for those steps |
| Geometry.Abs | scripts/main.js:80 | `Math.abs`: the result is the argument or its negation, never negative |
| Geometry.IsSwap | scripts/main.js:80 | the step swaps the axes exactly when it is not a multiple of 180, and the opposite step swaps exactly when it does |
| Geometry.HalfTurnsEitherSign | scripts/main.js:80 | a multiple of 180 stays one when negated, which is why `Math.abs` does not change the test |
| Geometry.NewWidth | scripts/main.js:81 | the new width is the old height on a swapping step and the old width otherwise |
| Geometry.NewHeight | scripts/main.js:82 | the new height is the old width on a swapping step and the old height otherwise |
| Geometry.CanvasRestored | scripts/main.js:80-82 | the opposite step gives the canvas its old width and height back |
| Geometry.TurnSwaps | scripts/main.js:80-101 | a quarter turn always swaps the axes; a half turn never does |
| Geometry.Transform | scripts/main.js:89-103 | a step with no branch leaves the point unchanged; a proper step maps the old canvas onto the rotated canvas, in both directions |
| Geometry.TransformInverse | scripts/main.js:89-103 | the opposite step on the rotated canvas returns every point exactly |
| Geometry.QuarterTurnsCancel | scripts/main.js:89-103 | +90 on (W,H) and then -90 on (H,W) is the identity, in either order; 180 twice on (W,H) is the identity |
| Geometry.TransformIsometry | scripts/main.js:89-103 | the transform keeps distances between points |
| Geometry.RotateOffset | scripts/main.js:118-130 | the rotated background offset keeps its length |
| Geometry.OffsetIsVectorTransform | scripts/main.js:118-130 | the offset turns as the point transform on a zero-size canvas, so it does not depend on the scene size |
| Geometry.OffsetInverse | scripts/main.js:118-130 | the opposite step restores the offset |
| Common.OrZero | scripts/main.js:111-112 | a missing value reads as 0, a present value as itself |
| Angles.JsRem360 | scripts/main.js:255 | JavaScript `% 360` on a number: the result lies in (-360, 360), keeps the sign of the dividend, and differs from it by whole turns |
| Angles.Truncate | scripts/main.js:255 | the quotient rounded toward zero lies within one of the exact quotient, on the side of zero |
| Angles.TruncatedRemainder | scripts/main.js:255 | the dividend minus the truncated multiple of 360 lies in (-360, 360) with the dividend's sign |
| Angles.AngleAfter | scripts/main.js:255 | an entity angle after the step lies in (-360, 360), has the sign of old angle plus step, and differs from it by whole turns |
| Angles.AngleAfterSmall | scripts/main.js:255 | a sum already in (-360, 360) is kept unchanged |
| Angles.AngleAfterOneTurn | scripts/main.js:255 | a sum between one and two full turns loses exactly one turn |
| Angles.JsRemInt360 | scripts/main.js:364 | JavaScript `% 360` on an integer: the result lies in (-360, 360), keeps the dividend's sign, and is congruent to it |
| Angles.NormalizeAngle | scripts/main.js:364-365 | the stored image angle lies in [0, 360) and is congruent to the cumulative angle |
| Angles.NormalizeIsEuclidean | scripts/main.js:364-365 | remainder plus 360 when negative equals the Euclidean residue modulo 360 |
| Angles.NormalizeAccumulates | scripts/main.js:363-365 | normalising after each step or once at the end gives the same angle |
| Decimal.DigitChar | scripts/main.js:367 | a digit character has the value it was made from |
| Decimal.Show | scripts/main.js:367 | the angle in a file name is a non-empty digit run without a leading zero |
| Decimal.ParseDigits | scripts/main.js:353 | (no contract of its own) `parseInt` of a digit run; `ParseShow` proves it inverts the rendering of an angle |
| Decimal.ParseShow | scripts/main.js:353 | `parseInt` of a rendered angle gives the angle back |
| Decimal.ShowInjective | scripts/main.js:367 | distinct angles give distinct file names |
| Entities.CollectionKey | scripts/main.js:145-154 | each document type is written under its collection's key |
| Entities.CollectionKeyInjective | scripts/main.js:145-154 | distinct document types never share a key |
| Entities.EmbeddedKindsComplete | scripts/main.js:140-142 | every document type is visited, each exactly once |
| Entities.OptionalNum | scripts/main.js:239-246 | a copied size field is `undefined` exactly when it was missing, and the value otherwise |
| Entities.PixelExtent | scripts/main.js:189-213 | a token uses its rendered size when both sides are non-zero, else its cells times the grid size; a tile uses its size, a drawing its shape's; missing sides count as 0 |
| Entities.TurnedExtent | scripts/main.js:226-236 | the pixel extent's sides are exchanged exactly on a quarter step |
| Entities.PivotBox | scripts/main.js:215-253 | the new top-left plus half the turned extent is the transformed old centre |
| Entities.PivotCoversBox | scripts/main.js:215-253 | on a proper step (a quarter or half turn), every point of the old box is carried into the pivoted box |
| Entities.PivotInverse | scripts/main.js:215-253 | pivoting back by the opposite step on the rotated canvas restores the top-left corner |
| Entities.MovedPoint | scripts/main.js:174-176 | a point-like update writes exactly `x` and `y`, the transformed position |
| Entities.UpdateFor | scripts/main.js:164-264 | every update record carries the document's `_id` |
| Entities.WallEndpoints | scripts/main.js:167-172 | a wall writes only `c`, its two endpoints transformed independently and in order |
| Entities.PointLikeFields | scripts/main.js:173-181 | lights, sounds and notes move their point; `config.rotation` is written exactly for a light that has one, turned by the step |
| Entities.TemplateFields | scripts/main.js:257-262 | a template writes exactly `x`, `y` and `direction`: the moved origin and the turned direction |
| Entities.SwappedSize | scripts/main.js:237-247 | (no contract of its own) the exchanged size fields of a box; `BoxFieldsSpec` states them |
| Entities.BoxFields | scripts/main.js:182-256 | (no contract of its own) the update record of a token, tile or drawing; `BoxFieldsSpec` states its content |
| Entities.StrayStepShiftsBox | scripts/main.js:220-255 | on a step that selects no branch but swaps the axes, a box's top-left shifts by half the difference of its sides, and its rotation still turns |
| Entities.BoxFieldsSpec | scripts/main.js:182-256 | a token, tile or drawing keeps its centre under the transform and turns its rotation (missing reads as 0); on a quarter step its stored size fields are exchanged and exactly `x`, `y`, `rotation` and those two size fields are written, otherwise only `x`, `y` and `rotation` are written |
| Entities.BoxFieldKeys | scripts/main.js:182-256 | the fields a box update writes: `x`, `y` and `rotation`, plus on a quarter step `width` and `height` (for a drawing, `shape.width` and `shape.height`) and nothing else |
| SceneRotation.Key | scripts/main.js:108-301 | (no contract of its own) the dotted path each field is written under; `KeyInjective` states that distinct fields get distinct paths |
| SceneRotation.SceneFields | scripts/main.js:105-133 | (no contract of its own) width, height and offsets after the step; `PlanCanvas` states them |
| SceneRotation.Plan | scripts/main.js:105-301 | (no contract of its own) the whole update object; `PlanCanvas`, `PlanCollection`, `PlanImages`, `PlanGrid` and `PlanDispatch` state its content, and `Rotate` is proved to build it |
| SceneRotation.KeyInjective | scripts/main.js:105-301 | distinct fields of the update are written under distinct paths |
| SceneRotation.Position | scripts/main.js:140-142 | each document type has a position in the visiting order that holds it |
| SceneRotation.PositionOf | scripts/main.js:140-142 | the position of the type at index i is i |
| SceneRotation.HexSwap | scripts/main.js:295-299 | hex rows become columns and columns become rows, keeping odd or even |
| SceneRotation.HexSwapInvolution | scripts/main.js:295-299 | remapping twice restores the grid type |
| SceneRotation.DocUpdates | scripts/main.js:163-265 | one update per document, in collection order, each that document's record |
| SceneRotation.CollectionFields | scripts/main.js:156-270 | only collection entries are produced |
| SceneRotation.CollectionFieldsSpec | scripts/main.js:156-270 | after the first n document types, exactly the non-empty collections among them have an entry, holding that collection's records |
| SceneRotation.Written | scripts/main.js:279 | a returned path is written exactly when it is a non-empty string |
| SceneRotation.PathField | scripts/main.js:279 | at most the one named path is written |
| SceneRotation.ImageOutcome | scripts/main.js:276-285 | a scene image with no path is never rotated |
| SceneRotation.ImageFields | scripts/main.js:272-290 | the image step writes at most the background and foreground paths |
| SceneRotation.GridFields | scripts/main.js:292-303 | the grid step writes at most the grid type |
| SceneRotation.Rotate | scripts/main.js:67-303 | returns nothing exactly when the step is not a multiple of 90; otherwise the update object is the `Plan` of the scene given the image host's answers |
| SceneRotation.CollectEmbedded | scripts/main.js:156-270 | the loop over document types produces exactly the collection entries of `Plan` |
| SceneRotation.UpdateCollection | scripts/main.js:163-265 | the loop over a collection pushes exactly the `DocUpdates` list |
| SceneRotation.RotateImages | scripts/main.js:272-290 | background then foreground; a thrown error abandons the rest of the image step but keeps a background path already written |
| SceneRotation.WritePath | scripts/main.js:278-285 | an error is reported and writes nothing; otherwise a non-empty returned path is written |
| SceneRotation.ImageFieldsCases | scripts/main.js:272-290 | the three outcomes of the image step (background fails, foreground fails, both succeed) make up the image fields |
| SceneRotation.PlanCanvas | scripts/main.js:105-133 | width, height and both offsets are always written: the sizes exchanged exactly on a swapping step, the offset rotated with missing parts as 0 |
| SceneRotation.PlanKeepsSceneField | scripts/main.js:105-133 | no later group of updates overwrites a size or offset |
| SceneRotation.PlanCollection | scripts/main.js:156-270 | a collection has an entry exactly when it is not empty, and the entry lists one record per document in order |
| SceneRotation.PlanDispatch | scripts/main.js:156-264 | in a scene whose collections hold documents of their own type, each record of a collection's entry is that document's update, built by the branch for the collection's type |
| SceneRotation.PlanImages | scripts/main.js:272-290 | the background path is written exactly when its rotation returns a non-empty path; the foreground path exactly when the background did not fail and its own rotation returns a non-empty path |
| SceneRotation.PlanGrid | scripts/main.js:292-303 | the grid type is written exactly for a hex type (2 to 5) on a swapping step, with rows and columns exchanged |
| ImageNames.LastIndexOf | scripts/main.js:345 | `lastIndexOf`: -1 or the position of the last occurrence, with none after it |
| ImageNames.SplitPath | scripts/main.js:340-343 | the file name has no slash; the path is the directory, a slash and the file name, or just the file name when it has no slash |
| ImageNames.Stem | scripts/main.js:345 | the name loses its last extension; a name without a dot after its first character is kept whole |
| ImageNames.TrailingDigits | scripts/main.js:349 | counts the maximal run of trailing digits |
| ImageNames.DigitsExtend | scripts/main.js:349 | a digit in front of a digit run extends the run |
| ImageNames.TrailingDigitsAfter | scripts/main.js:349 | a digit run after a non-digit is counted exactly |
| ImageNames.MatchRotation | scripts/main.js:349 | a match yields capture groups that fit the pattern |
| ImageNames.MatchNeedsOneLine | scripts/main.js:349 | a stem holding a line terminator never matches the pattern |
| ImageNames.MatchComplete | scripts/main.js:349 | every way a stem fits the pattern is the match reported: recognition is exact and the groups unique |
| ImageNames.TagAngle | scripts/main.js:353 | `parseInt` of the tag: never positive with a minus sign, never negative without; `ShownTag` proves it reads back a rendered angle |
| ImageNames.EndsWith | scripts/main.js:354 | (no contract of its own) `endsWith`; `CacheDirectory` and `FindCached` state what it decides |
| ImageNames.ExtensionFor | scripts/main.js:331-337 | png and webp map to their extensions; every other encoding, JPEG included, gives jpg |
| ImageNames.CacheDirectory | scripts/main.js:354-361 | the directory always ends in `rotated-images`; a tagged source already there stays, otherwise the directory is appended, or used alone for an empty parent |
| ImageNames.Target.Angle | scripts/main.js:364-365 | the stored angle lies in [0, 360) and is congruent to the cumulative turn |
| ImageNames.ParseSource | scripts/main.js:340-353 | the base name has no slash; an untagged name is at angle 0 |
| ImageNames.TargetName | scripts/main.js:367 | (no contract of its own) `<base>_rotation<angle>.<ext>`; `TargetNameParts` and `ParseVariant` state that it has no slash and parses back |
| ImageNames.Target.Name | scripts/main.js:367 | (no contract of its own) the target's file name at its normalised angle; `TempleNames` gives concrete values |
| ImageNames.DeriveTarget | scripts/main.js:328-367 | the variant lies in a directory whose name ends in `rotated-images`, its base has no slash, and its extension comes from the encoding |
| ImageNames.TargetOfSource | scripts/main.js:340-367 | directory, base, cumulative angle and extension are read from the source's parts |
| ImageNames.NoSlashInPrefix | scripts/main.js:340-345 | a prefix of a slash-free name is slash-free |
| ImageNames.TargetNameParts | scripts/main.js:367 | a target name has no slash, and stripping its extension leaves `<base>_rotation<angle>` |
| ImageNames.NoSlashJoin | scripts/main.js:367 | joining slash-free parts gives a slash-free name |
| ImageNames.DigitsHaveNoSlash | scripts/main.js:367 | a rendered angle has no slash |
| ImageNames.StemOfDotted | scripts/main.js:345 | the stem of `<stem>.<ext>` is `<stem>` when the extension has no dot |
| ImageNames.ParseVariant | scripts/main.js:340-353 | a stored variant parses back to its directory, base and angle, as a tagged name |
| ImageNames.JoinedSplit | scripts/main.js:340-343 | splitting a directory joined with a slash-free name gives the two back |
| ImageNames.ShownTag | scripts/main.js:349-353 | a stem tagged with a rendered angle matches, with that angle |
| ImageNames.DeriveIdempotent | scripts/main.js:340-367 | for a base without line terminators, rotating a variant again keeps its directory and base and adds the step to its stored angle: no nested tags or cache directories |
| ImageNames.NestedTag | scripts/main.js:340-361 | for a base with a line terminator, rotating a variant again keeps the old tag in the base, restarts the angle from 0 and nests another cache directory |
| ImageNames.ExtensionIgnored | scripts/main.js:340-367 | two paths that differ only in their extension derive the same target |
| ImageNames.TwiceRotated | scripts/main.js:363-367 | two successive rotations store the angle of one rotation by the sum of the steps |
| ImageNames.AnglesAdd | scripts/main.js:363-365 | normalising the intermediate angle does not change the final one |
| ImageNames.RederiveVariant | scripts/main.js:340-367 | re-rotating a stored variant stays in its directory, keeps its base and adds the step |
| ImageNames.RederiveFromSource | scripts/main.js:354-355 | a tagged source in a cache directory stays there |
| ImageNames.LastSlash | scripts/main.js:340-341 | the last slash of `<dir>/<file>` is the one before the slash-free file |
| ImageNames.SplitUnique | scripts/main.js:340-343 | a path has only one split into directory and slash-free file |
| ImageNames.FindCached | scripts/main.js:374-376 | returns the first listed file ending with the target name, or nothing when none does |
| ImageNames.SuffixHitOtherImage | scripts/main.js:374-376 | the variant of another image whose base ends with this one's is returned as a cache hit |
| ImageNames.RotateAndUploadSpec | scripts/main.js:328-377 | an empty path gives no path; the first listed file ending with the target name is returned as is; otherwise the result is the host's upload, and an upload failure propagates |
| ImageExamples.TempleSource | scripts/main.js:340-353 | `maps/temple.jpg` is untagged with base `temple` in `maps` |
| ImageExamples.TempleNames | scripts/main.js:367 | the names at 90 and 0 degrees are `temple_rotation90.jpg` and `temple_rotation0.jpg` |
| ImageExamples.TempleRotatedOnce | scripts/main.js:328-367 | `maps/temple.jpg` at +90 gives `maps/rotated-images/temple_rotation90.jpg` |
| ImageExamples.TempleRotatedBack | scripts/main.js:328-367 | that variant at -90 gives `maps/rotated-images/temple_rotation0.jpg` |
| ImageExamples.OldCacheDirKept | scripts/main.js:349-360 | a tagged variant in `maps/old-rotated-images` stays there when rotated again, because that directory name ends in `rotated-images` |
| Scenarios.TokenQuarterTurn | scripts/main.js:182-255 | a 2x1-cell token at (100,100) on a 50-pixel grid in a 1000x500 scene, turned +90, goes to (350,100) as 1x2 cells with rotation 90 |
| Scenarios.TileStrayStep | scripts/main.js:220-255 | a 100x50 tile at the origin on a 450-degree step goes to (25,-25), exchanges its size and gets rotation 90 |
| Scenarios.WallQuarterTurnBack | scripts/main.js:167-172 | the wall (0,0)-(100,0) in a 1000x500 scene turned -90 becomes (0,1000)-(0,900) |

## Left out

- The settings-dialog hook, the rotation buttons, the confirmation prompt,
  translations and notifications (scripts/main.js:1-60 and the
  `ui.notifications` calls): user interface only.
- Loading, drawing and encoding the image (`_loadImage`, the canvas and
  `toBlob`, scripts/main.js:384-399 and 411-419): browser APIs and
  floating-point trigonometry.
- The storage calls `FilePicker.browse`, `createDirectory` and `upload`
  (scripts/main.js:371, 402, 406): the model takes their answers as an
  `ImageHost` value, which holds the listing (absent when browsing fails)
  and the upload result. A failed listing is a cache miss.
- The fog reset, its 100 ms wait and the final `scene.update`
  (scripts/main.js:305-323): host side effects and timing. The model stops
  at the constructed update object.
- The update object is a map from fields to values. The model does not
  keep the key order of the JavaScript object.
- `decodeURIComponent` is taken as the identity on names. In the program a
  malformed escape such as `100%.jpg` throws at scripts/main.js:342, and
  the `catch` of `rotate` (scripts/main.js:287-290) turns that into a failed
  image; a malformed listed name makes the search at scripts/main.js:374
  throw, which the `catch` at scripts/main.js:379 turns into a cache miss;
  and a base holding a valid escape such as `%41` is decoded again on every
  re-rotation, so `DeriveIdempotent` holds in the program only for names
  that decoding leaves unchanged. None of this is modelled.
- `parseInt` is exact on digit runs of any length, so it does not lose
  precision on very long angles.
- A wall's `c` array is modelled as its two endpoints, so a malformed
  array is not modelled.
- A light's `config.rotation` is either present or absent. A `null` value,
  which the JavaScript would add to the step, is not modelled.
- A token's rendered object counts when it is present and both its sides
  are non-zero. This is the truthiness test of `doc.object.w` and
  `doc.object.h`; a `NaN` side is not modelled.
- A document's type comes from its constructor. `Rotate` requires
  `Scene.Valid()`, which says every collection holds documents of its own
  type, so the branch taken for a document is the one for its
  collection's type (`PlanDispatch`). Reading a field that a document type
  does not have is not modelled.
- Numbers are exact reals, so the model has no floating-point rounding.
- ImageNames.RotateAndUpload: the function carries no contract of its own.
  What it promises is stated and proved by `RotateAndUploadSpec`.
