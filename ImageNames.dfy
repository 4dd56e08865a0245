/**
 * The naming and cache scheme of the image rotator: from a source image
 * path and a rotation step it derives the cache directory and the target
 * file name `<base>_rotation<angle>.<ext>`, where `<angle>` is the
 * cumulative rotation in [0, 360), and it reuses an already listed file
 * whose name ends with that target name instead of rendering again.
 *
 * `decodeURIComponent` is taken as the identity on names.
 */
module ImageNames {
  import opened Common
  import opened Decimal
  import opened Angles

  /** The sub-directory that holds rotated variants. */
  const CacheDir: string := "rotated-images"

  /** The marker between a variant's base name and its angle. */
  const RotationMarker: string := "_rotation"

  predicate EndsWith(s: string, suffix: string) {
    |suffix| <= |s| && s[|s| - |suffix|..] == suffix
  }

  /** `s.lastIndexOf(c)`: the last position of `c`, or -1. */
  function LastIndexOf(s: string, c: char): (i: int)
    ensures -1 <= i < |s|
    ensures i >= 0 ==> s[i] == c
    ensures forall j :: i < j < |s| ==> s[j] != c
  {
    if s == [] then -1
    else if s[|s| - 1] == c then |s| - 1
    else LastIndexOf(s[..|s| - 1], c)
  }

  datatype PathParts = PathParts(dir: string, file: string)

  /**
   * `path.split("/")`, `pop()` for the file name and `join("/")` of the
   * rest for the parent directory.
   */
  function SplitPath(path: string): (r: PathParts)
    ensures '/' !in r.file
    ensures '/' in path ==> path == r.dir + "/" + r.file
    ensures '/' !in path ==> r.dir == "" && r.file == path
  {
    var i := LastIndexOf(path, '/');
    if i < 0 then PathParts("", path)
    else
      assert path == path[..i] + "/" + path[i + 1..];
      PathParts(path[..i], path[i + 1..])
  }

  /**
   * `name.substring(0, name.lastIndexOf(".")) || name`: the name without
   * its last extension; a name whose only dot is its first character, or
   * that has no dot, is kept whole.
   */
  function Stem(name: string): (stem: string)
    ensures stem <= name
    ensures stem == name <==> |name| == 0 || '.' !in name[1..]
    ensures stem != name ==> |stem| > 0 && name[|stem|] == '.' && '.' !in name[|stem| + 1..]
  {
    var i := LastIndexOf(name, '.');
    if i > 0 then
      assert name[1..][i - 1] == '.';
      name[..i]
    else
      assert forall j :: 0 <= j < |name| - 1 ==> name[1..][j] == name[j + 1];
      name
  }

  /** `.` in a JavaScript regular expression matches no line terminator. */
  predicate NoLineTerminator(s: string) {
    forall i :: 0 <= i < |s| ==> s[i] != '\n' && s[i] != '\r' && s[i] != '\U{2028}' && s[i] != '\U{2029}'
  }

  /** The capture groups of `^(.*)_rotation(-?\d+)$`. */
  datatype RotationTag = RotationTag(base: string, negative: bool, digits: string)

  function Sign(negative: bool): string {
    if negative then "-" else ""
  }

  /** `stem` matches the rotation pattern with capture groups `t`. */
  predicate IsTag(stem: string, t: RotationTag) {
    && stem == t.base + RotationMarker + Sign(t.negative) + t.digits
    && |t.digits| > 0
    && AllDigits(t.digits)
    && NoLineTerminator(t.base)
  }

  /** The number of digits at the end of `s`. */
  function TrailingDigits(s: string): (n: nat)
    ensures n <= |s|
    ensures AllDigits(s[|s| - n..])
    ensures n < |s| ==> !IsDigit(s[|s| - n - 1])
  {
    if s != [] && IsDigit(s[|s| - 1]) then
      var n := TrailingDigits(s[..|s| - 1]);
      DigitsExtend(s, n);
      n + 1
    else 0
  }

  lemma DigitsExtend(s: string, n: nat)
    requires |s| > 0 && IsDigit(s[|s| - 1]) && n <= |s| - 1
    requires AllDigits(s[..|s| - 1][|s| - 1 - n..])
    ensures AllDigits(s[|s| - (n + 1)..])
  {
    var tail := s[|s| - (n + 1)..];
    forall i | 0 <= i < |tail| ensures IsDigit(tail[i]) {
      if i < n {
        assert tail[i] == s[..|s| - 1][|s| - 1 - n..][i];
      } else {
        assert tail[i] == s[|s| - 1];
      }
    }
  }

  /**
   * `stem.match(/^(.*)_rotation(-?\d+)$/)`. The digit group is the whole run
   * of trailing digits, since the character before it is `n` or `-`.
   */
  function MatchRotation(stem: string): (m: Option<RotationTag>)
    ensures m.Some? ==> IsTag(stem, m.value)
  {
    var n := TrailingDigits(stem);
    if n == 0 then None
    else
      var digits := stem[|stem| - n..];
      var rest := stem[..|stem| - n];
      var negative := |rest| > 0 && rest[|rest| - 1] == '-';
      var head := if negative then rest[..|rest| - 1] else rest;
      if EndsWith(head, RotationMarker) && NoLineTerminator(head[..|head| - |RotationMarker|]) then
        var base := head[..|head| - |RotationMarker|];
        assert head == base + RotationMarker;
        assert rest == head + Sign(negative);
        assert stem == rest + digits;
        Some(RotationTag(base, negative, digits))
      else None
  }

  lemma {:induction false} TrailingDigitsAfter(prefix: string, digits: string)
    requires |prefix| > 0 && !IsDigit(prefix[|prefix| - 1])
    requires AllDigits(digits)
    ensures TrailingDigits(prefix + digits) == |digits|
  {
    if digits == [] {
      assert prefix + digits == prefix;
    } else {
      var s := prefix + digits;
      assert s[..|s| - 1] == prefix + digits[..|digits| - 1];
      TrailingDigitsAfter(prefix, digits[..|digits| - 1]);
    }
  }

  /**
   * Every way `stem` fits the pattern is the one the matcher reports: the
   * pattern is recognised exactly, and its capture groups are unique.
   */
  lemma {:induction false} MatchComplete(stem: string, t: RotationTag)
    requires IsTag(stem, t)
    ensures MatchRotation(stem) == Some(t)
  {
    var prefix := t.base + RotationMarker + Sign(t.negative);
    assert stem == prefix + t.digits;
    assert prefix[|prefix| - 1] == (if t.negative then '-' else 'n');
    TrailingDigitsAfter(prefix, t.digits);
    var n := |t.digits|;
    assert stem[|stem| - n..] == t.digits;
    assert stem[..|stem| - n] == prefix;
    var head := t.base + RotationMarker;
    if t.negative {
      assert prefix[..|prefix| - 1] == head;
    } else {
      assert prefix == head;
    }
    assert head[..|head| - |RotationMarker|] == t.base;
  }

  /** `parseInt` of the optional sign and digit groups. */
  function TagAngle(t: RotationTag): (a: int)
    requires AllDigits(t.digits)
    ensures t.negative ==> a <= 0
    ensures !t.negative ==> a >= 0
  {
    var v: int := ParseDigits(t.digits);
    if t.negative then -v else v
  }

  /** The extension for the requested encoding, `jpg` when unknown. */
  function ExtensionFor(mime: string): (ext: string)
    ensures ext == "jpg" || ext == "png" || ext == "webp"
    ensures mime == "image/png" ==> ext == "png"
    ensures mime == "image/webp" ==> ext == "webp"
    ensures mime != "image/png" && mime != "image/webp" ==> ext == "jpg"
  {
    if mime == "image/jpeg" then "jpg"
    else if mime == "image/png" then "png"
    else if mime == "image/webp" then "webp"
    else "jpg"
  }

  /**
   * The directory a variant is written to: a tagged variant already in a
   * directory whose name ends with `rotated-images` stays there; otherwise
   * `rotated-images` is appended to the parent directory.
   */
  function CacheDirectory(parentDir: string, tagged: bool): (dir: string)
    ensures EndsWith(dir, CacheDir)
    ensures tagged && EndsWith(parentDir, CacheDir) ==> dir == parentDir
    ensures !(tagged && EndsWith(parentDir, CacheDir)) && parentDir != "" ==> dir == parentDir + "/" + CacheDir
    ensures !(tagged && EndsWith(parentDir, CacheDir)) && parentDir == "" ==> dir == CacheDir
  {
    if tagged && EndsWith(parentDir, CacheDir) then parentDir
    else if parentDir != "" then parentDir + "/" + CacheDir
    else CacheDir
  }

  function TargetName(base: string, angle: nat, ext: string): string {
    base + RotationMarker + Show(angle) + "." + ext
  }

  /** Where a rotated variant is stored, and the parts of its file name. */
  datatype Target = Target(dir: string, base: string, turn: int, ext: string) {
    /** The cumulative angle `turn`, normalised into [0, 360). */
    function Angle(): (a: nat)
      ensures a < 360
      ensures (turn - a) % 360 == 0
    {
      NormalizeAngle(turn)
    }

    /** `${baseName}_rotation${newRotation}.${ext}` */
    function Name(): string {
      TargetName(base, Angle(), ext)
    }
  }

  /** What a source path says about itself: its directory, its base name,
   *  the angle already baked into it and whether it carries a tag. */
  datatype SourceName = SourceName(parentDir: string, base: string, current: int, tagged: bool)

  /**
   * The base name loses its extension and any `_rotation<N>` tag; the
   * current angle is the tag's angle, or 0 for an untagged name.
   */
  function ParseSource(path: string): (src: SourceName)
    ensures '/' !in src.base
    ensures !src.tagged ==> src.current == 0
  {
    var parts := SplitPath(path);
    var stem := Stem(parts.file);
    var tag := MatchRotation(stem);
    var base := if tag.Some? then tag.value.base else stem;
    assert base <= parts.file;
    NoSlashInPrefix(base, parts.file);
    SourceName(parts.dir, base, if tag.Some? then TagAngle(tag.value) else 0, tag.Some?)
  }

  /**
   * The derivation of the target from a source path and a step: the
   * cumulative angle is the source's angle plus the step (normalised into
   * [0, 360) by `Target.Angle`), and the variant lives in the cache
   * directory.
   */
  function DeriveTarget(path: string, degrees: int, mime: string): (t: Target)
    ensures EndsWith(t.dir, CacheDir)
    ensures '/' !in t.base
    ensures t.ext == ExtensionFor(mime)
  {
    var src := ParseSource(path);
    Target(CacheDirectory(src.parentDir, src.tagged), src.base, src.current + degrees, ExtensionFor(mime))
  }

  /** Each part of a target, read off what the source path says about itself. */
  lemma TargetOfSource(p: string, src: SourceName, d: int, m: string)
    requires ParseSource(p) == src
    ensures var t := DeriveTarget(p, d, m);
            && t.dir == CacheDirectory(src.parentDir, src.tagged)
            && t.base == src.base
            && t.turn == src.current + d
            && t.ext == ExtensionFor(m)
  {
  }

  lemma NoSlashInPrefix(p: string, s: string)
    requires p <= s && '/' !in s
    ensures '/' !in p
  {
  }

  /**
   * A target name has no slash, and dropping its extension leaves
   * `<base>_rotation<angle>`.
   */
  lemma {:induction false} TargetNameParts(base: string, angle: nat, ext: string)
    requires '/' !in base
    requires ext == "jpg" || ext == "png" || ext == "webp"
    ensures '/' !in TargetName(base, angle, ext)
    ensures Stem(TargetName(base, angle, ext)) == base + RotationMarker + Show(angle)
  {
    var digits := Show(angle);
    DigitsHaveNoSlash(digits);
    NoSlashJoin(base, RotationMarker);
    NoSlashJoin(base + RotationMarker, digits);
    NoSlashJoin(base + RotationMarker + digits, "." + ext);
    StemOfDotted(base + RotationMarker + digits, ext);
  }

  lemma NoSlashJoin(a: string, b: string)
    requires '/' !in a && '/' !in b
    ensures '/' !in a + b
  {
    forall i | 0 <= i < |a + b| ensures (a + b)[i] != '/' {
      if i < |a| {
        assert (a + b)[i] == a[i];
      } else {
        assert (a + b)[i] == b[i - |a|];
      }
    }
  }

  lemma DigitsHaveNoSlash(d: string)
    requires AllDigits(d)
    ensures '/' !in d
  {
    forall i | 0 <= i < |d| ensures d[i] != '/' {
      assert IsDigit(d[i]);
    }
  }

  /** The stem of `<stem>.<ext>` is `<stem>` when the extension has no dot. */
  lemma StemOfDotted(stem: string, ext: string)
    requires |stem| > 0 && '.' !in ext
    ensures Stem(stem + "." + ext) == stem
  {
    var name := stem + "." + ext;
    assert name[|stem|] == '.';
    assert name[1..][|stem| - 1] == '.';
    assert name[|stem| + 1..] == ext;
  }

  /** A stored variant parses back to its directory, base name and angle. */
  lemma {:induction false} ParseVariant(dir: string, base: string, angle: nat, ext: string)
    requires '/' !in base && NoLineTerminator(base)
    requires ext == "jpg" || ext == "png" || ext == "webp"
    ensures ParseSource(dir + "/" + TargetName(base, angle, ext)) == SourceName(dir, base, angle, true)
  {
    var name := TargetName(base, angle, ext);
    TargetNameParts(base, angle, ext);
    JoinedSplit(dir, name);
    ShownTag(base, angle);
  }

  /**
   * Only a stem free of line terminators matches the pattern: `.` does not
   * match them, and neither the marker nor the angle contains one.
   */
  lemma MatchNeedsOneLine(stem: string)
    requires !NoLineTerminator(stem)
    ensures MatchRotation(stem) == None
  {
    var m := MatchRotation(stem);
    if m.Some? {
      TagIsOneLine(stem, m.value);
      assert false;
    }
  }

  /** Every character of a stem that fits the pattern is on one line. */
  lemma TagIsOneLine(stem: string, t: RotationTag)
    requires IsTag(stem, t)
    ensures NoLineTerminator(stem)
  {
    var mid := RotationMarker + Sign(t.negative);
    forall j | 0 <= j < |mid| ensures mid[j] in "_rotaion-" {
    }
    forall j | 0 <= j < |t.digits| ensures IsDigit(t.digits[j]) {
    }
    OneLineJoin(t.base, mid);
    OneLineJoin(t.base + mid, t.digits);
  }

  lemma OneLineJoin(a: string, b: string)
    requires NoLineTerminator(a) && NoLineTerminator(b)
    ensures NoLineTerminator(a + b)
  {
    forall i | 0 <= i < |a + b|
      ensures (a + b)[i] != '\n' && (a + b)[i] != '\r' && (a + b)[i] != '\U{2028}' && (a + b)[i] != '\U{2029}'
    {
      if i < |a| {
        assert (a + b)[i] == a[i];
      } else {
        assert (a + b)[i] == b[i - |a|];
      }
    }
  }

  /** An untagged file name parses to its stem at angle 0. */
  lemma UntaggedParse(dir: string, name: string)
    requires '/' !in name
    requires MatchRotation(Stem(name)) == None
    ensures ParseSource(dir + "/" + name) == SourceName(dir, Stem(name), 0, false)
  {
    JoinedSplit(dir, name);
  }

  /**
   * A base name with a line break is never recognised as tagged, so
   * rotating one of its variants again nests the tag and the cache
   * directory: the base keeps the old tag, the angle restarts from 0, and
   * a further `rotated-images` is appended.
   */
  lemma {:induction false} NestedTag(dir: string, base: string, angle: nat, ext: string, d: int, m: string)
    requires '/' !in base && !NoLineTerminator(base)
    requires ext == "jpg" || ext == "png" || ext == "webp"
    ensures var t := DeriveTarget(dir + "/" + TargetName(base, angle, ext), d, m);
            && t.base == base + RotationMarker + Show(angle)
            && t.turn == d
            && (dir != "" ==> t.dir == dir + "/" + CacheDir)
  {
    var name := TargetName(base, angle, ext);
    TargetNameParts(base, angle, ext);
    var stem := base + RotationMarker + Show(angle);
    var i :| 0 <= i < |base| && !(base[i] != '\n' && base[i] != '\r' && base[i] != '\U{2028}' && base[i] != '\U{2029}');
    assert stem[i] == base[i];
    MatchNeedsOneLine(stem);
    UntaggedParse(dir, name);
  }

  /**
   * The cache test is a bare suffix test: the variant of another image whose
   * base name merely ends with this one's is taken as a hit.
   */
  lemma {:induction false} SuffixHitOtherImage(dir: string, prefix: string, base: string, angle: nat, ext: string)
    requires |prefix| > 0
    requires '/' !in prefix + base && NoLineTerminator(prefix + base)
    requires ext == "jpg" || ext == "png" || ext == "webp"
    ensures var f := dir + "/" + TargetName(prefix + base, angle, ext);
            && FindCached([f], TargetName(base, angle, ext)) == Some(f)
            && ParseSource(f).base != base
  {
    var name := TargetName(base, angle, ext);
    var f := dir + "/" + TargetName(prefix + base, angle, ext);
    assert f == (dir + "/" + prefix) + name;
    assert f[|f| - |name|..] == name;
    ParseVariant(dir, prefix + base, angle, ext);
  }

  /**
   * The extension is stripped before the name is derived, so two images
   * that differ only in their extension share one variant.
   */
  lemma {:induction false} ExtensionIgnored(dir: string, stem: string, e1: string, e2: string, d: int, m: string)
    requires |stem| > 0 && '/' !in stem
    requires '/' !in e1 && '.' !in e1 && '/' !in e2 && '.' !in e2
    ensures DeriveTarget(dir + "/" + stem + "." + e1, d, m) == DeriveTarget(dir + "/" + stem + "." + e2, d, m)
  {
    var p1, p2 := dir + "/" + stem + "." + e1, dir + "/" + stem + "." + e2;
    DottedParts(dir, stem, e1);
    DottedParts(dir, stem, e2);
    SameParts(p1, p2);
    SameTarget(p1, p2, d, m);
  }

  /** The target depends on the path only through what the path parses to. */
  lemma SameTarget(p1: string, p2: string, d: int, m: string)
    requires ParseSource(p1) == ParseSource(p2)
    ensures DeriveTarget(p1, d, m) == DeriveTarget(p2, d, m)
  {
    var src := ParseSource(p1);
    TargetOfSource(p1, src, d, m);
    TargetOfSource(p2, src, d, m);
  }

  /** `<dir>/<stem>.<ext>` splits into `dir` and a file whose stem is `stem`. */
  lemma DottedParts(dir: string, stem: string, e: string)
    requires |stem| > 0 && '/' !in stem && '/' !in e && '.' !in e
    ensures SplitPath(dir + "/" + stem + "." + e).dir == dir
    ensures Stem(SplitPath(dir + "/" + stem + "." + e).file) == stem
  {
    NoSlashJoin(stem, ".");
    NoSlashJoin(stem + ".", e);
    assert dir + "/" + stem + "." + e == dir + "/" + (stem + "." + e);
    JoinedSplit(dir, stem + "." + e);
    StemOfDotted(stem, e);
  }

  /** Two paths with the same directory and stem parse alike. */
  lemma SameParts(p1: string, p2: string)
    requires SplitPath(p1).dir == SplitPath(p2).dir
    requires Stem(SplitPath(p1).file) == Stem(SplitPath(p2).file)
    ensures ParseSource(p1) == ParseSource(p2)
  {
  }

  /** Joining a directory and a slash-free name splits back into the two. */
  lemma JoinedSplit(dir: string, name: string)
    requires '/' !in name
    ensures SplitPath(dir + "/" + name) == PathParts(dir, name)
  {
    var joined := dir + "/" + name;
    assert joined[|dir|] == '/';
    var parts := SplitPath(joined);
    SplitUnique(joined, parts.dir, parts.file, dir, name);
  }

  /** A stem tagged with a rendered angle is recognised with that angle. */
  lemma ShownTag(base: string, angle: nat)
    requires NoLineTerminator(base)
    ensures var tag := RotationTag(base, false, Show(angle));
            MatchRotation(base + RotationMarker + Show(angle)) == Some(tag) && TagAngle(tag) == angle
  {
    var digits := Show(angle);
    var stem := base + RotationMarker + digits;
    var tag := RotationTag(base, false, digits);
    assert IsTag(stem, tag);
    MatchComplete(stem, tag);
    ParseShow(angle);
  }

  /**
   * Rotating a variant again keeps its directory and base name and adds
   * the new step to its cumulative angle: the scheme never nests tags or
   * cache directories, whatever encoding either step asks for, and the
   * stored angle of a twice-rotated image is that of one rotation by the
   * sum of the two steps.
   */
  lemma {:induction false} DeriveIdempotent(path: string, d1: int, m1: string, d2: int, m2: string)
    requires NoLineTerminator(DeriveTarget(path, d1, m1).base)
    ensures var t1 := DeriveTarget(path, d1, m1);
            var t2 := DeriveTarget(t1.dir + "/" + t1.Name(), d2, m2);
            && t2.dir == t1.dir
            && t2.base == t1.base
            && t2.turn == t1.Angle() + d2
  {
    var t1 := DeriveTarget(path, d1, m1);
    RederiveVariant(t1.dir, t1.base, t1.Angle(), t1.ext, d2, m2);
  }

  /**
   * The angle stored by two successive rotations is the one a single
   * rotation by the sum of the steps stores.
   */
  lemma TwiceRotated(path: string, d1: int, m1: string, d2: int, m2: string)
    requires NoLineTerminator(DeriveTarget(path, d1, m1).base)
    ensures var t1 := DeriveTarget(path, d1, m1);
            DeriveTarget(t1.dir + "/" + t1.Name(), d2, m2).Angle() == DeriveTarget(path, d1 + d2, m2).Angle()
  {
    var t1 := DeriveTarget(path, d1, m1);
    DeriveIdempotent(path, d1, m1, d2, m2);
    AnglesAdd(t1, DeriveTarget(t1.dir + "/" + t1.Name(), d2, m2), DeriveTarget(path, d1 + d2, m2), d2);
  }

  lemma AnglesAdd(t1: Target, t2: Target, t3: Target, d: int)
    requires t2.turn == t1.Angle() + d
    requires t3.turn == t1.turn + d
    ensures t2.Angle() == t3.Angle()
  {
    NormalizeAccumulates(t1.turn, d);
  }

  lemma RederiveVariant(dir: string, base: string, angle: nat, ext: string, d: int, m: string)
    requires '/' !in base && NoLineTerminator(base)
    requires ext == "jpg" || ext == "png" || ext == "webp"
    requires EndsWith(dir, CacheDir)
    ensures var t := DeriveTarget(dir + "/" + TargetName(base, angle, ext), d, m);
            t.dir == dir && t.base == base && t.turn == angle + d
  {
    ParseVariant(dir, base, angle, ext);
    RederiveFromSource(dir + "/" + TargetName(base, angle, ext), dir, base, angle, d, m);
  }

  /**
   * The target depends on the source path only through what the path says
   * about itself; a tagged source inside a cache directory stays there.
   */
  lemma RederiveFromSource(p: string, dir: string, base: string, angle: int, d: int, m: string)
    requires ParseSource(p) == SourceName(dir, base, angle, true)
    requires EndsWith(dir, CacheDir)
    ensures var t := DeriveTarget(p, d, m);
            t.dir == dir && t.base == base && t.turn == angle + d
  {
  }

  lemma LastSlash(path: string, d: string, f: string)
    requires path == d + "/" + f && '/' !in f
    ensures LastIndexOf(path, '/') == |d|
  {
    assert path[|d|] == '/';
    assert forall j :: |d| < j < |path| ==> path[j] == f[j - |d| - 1];
  }

  lemma SplitUnique(path: string, d: string, f: string, d': string, f': string)
    requires path == d + "/" + f && '/' !in f
    requires path == d' + "/" + f' && '/' !in f'
    ensures d == d' && f == f'
  {
    LastSlash(path, d, f);
    LastSlash(path, d', f');
    assert d == path[..|d|];
    assert d' == path[..|d'|];
    assert f == path[|d| + 1..];
    assert f' == path[|d'| + 1..];
  }

  /**
   * `files.find(f => f.endsWith(name))`: the first listed file whose name
   * ends with the target name, if any.
   */
  function FindCached(files: seq<string>, name: string): (found: Option<string>)
    ensures found.None? ==> forall i :: 0 <= i < |files| ==> !EndsWith(files[i], name)
    ensures found.Some? ==> exists i :: 0 <= i < |files| && files[i] == found.value
                              && (forall j :: 0 <= j < i ==> !EndsWith(files[j], name))
    ensures found.Some? ==> EndsWith(found.value, name)
  {
    if files == [] then None
    else if EndsWith(files[0], name) then Some(files[0])
    else
      var rest := FindCached(files[1..], name);
      if rest.Some? then
        var i :| 0 <= i < |files[1..]| && files[1..][i] == rest.value
                 && (forall j :: 0 <= j < i ==> !EndsWith(files[1..][j], name));
        assert files[i + 1] == rest.value;
        rest
      else rest
  }

  /** What the host's storage does for one image: its listing of the cache
   *  directory (absent when browsing fails) and the outcome of loading,
   *  rendering and uploading the image (the uploaded file's path). */
  datatype ImageHost = ImageHost(listing: Option<seq<string>>, upload: Result<string>)

  /**
   * `rotateAndUpload(path, degrees, mimeType)` up to the host calls: an
   * empty path yields null; a listed file ending with the target name is a
   * cache hit and is returned as is; otherwise the host renders and uploads,
   * and its failure propagates.
   */
  function RotateAndUpload(path: string, degrees: int, mime: string, host: ImageHost): (r: Result<Option<string>>)
  {
    if path == "" then Ok(None)
    else
      var target := DeriveTarget(path, degrees, mime);
      var hit := if host.listing.Some? then FindCached(host.listing.value, target.Name()) else None;
      if hit.Some? then Ok(hit)
      else if host.upload.Ok? then Ok(Some(host.upload.value))
      else Err(host.upload.message)
  }

  /**
   * An empty path yields no image; the first listed file ending with the
   * target name is a cache hit and is returned as it is; otherwise the host renders
   * and uploads, and its failure propagates.
   */
  lemma RotateAndUploadSpec(path: string, degrees: int, mime: string, host: ImageHost)
    ensures path == "" ==> RotateAndUpload(path, degrees, mime, host) == Ok(None)
    ensures var r, name := RotateAndUpload(path, degrees, mime, host), DeriveTarget(path, degrees, mime).Name();
            path != "" && host.listing.Some? && FindCached(host.listing.value, name).Some? ==>
              r == Ok(FindCached(host.listing.value, name))
              && r.value.value in host.listing.value && EndsWith(r.value.value, name)
    ensures var r, name := RotateAndUpload(path, degrees, mime, host), DeriveTarget(path, degrees, mime).Name();
            path != "" && (host.listing.None? || FindCached(host.listing.value, name).None?) ==>
              (r.Ok? <==> host.upload.Ok?) && (r.Ok? ==> r.value == Some(host.upload.value))
  {
  }
}
