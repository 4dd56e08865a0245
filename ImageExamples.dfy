/**
 * Worked examples of the naming scheme: a map image rotated a quarter turn
 * clockwise, and the variant rotated back.
 */
module ImageExamples {
  import opened ImageNames
  import opened Angles
  import opened Decimal
  import opened Common

  /** `maps/temple.jpg` is untagged: its base name is `temple`, at angle 0. */
  lemma TempleSource()
    ensures ParseSource("maps/temple.jpg") == SourceName("maps", "temple", 0, false)
  {
    TempleSplit();
    TempleStem();
    TempleUntagged();
  }

  lemma TempleSplit()
    ensures SplitPath("maps/temple.jpg") == PathParts("maps", "temple.jpg")
  {
    var path := "maps/temple.jpg";
    assert path == "maps" + "/" + "temple.jpg";
    LastSlash(path, "maps", "temple.jpg");
  }

  lemma TempleStem()
    ensures Stem("temple.jpg") == "temple"
  {
    var name := "temple.jpg";
    assert name[6] == '.' && name[7] != '.' && name[8] != '.' && name[9] != '.';
    assert LastIndexOf(name, '.') == 6;
  }

  lemma TempleUntagged()
    ensures MatchRotation("temple") == None
  {
    assert TrailingDigits("temple") == 0;
  }

  lemma TempleParts()
    ensures CacheDirectory("maps", false) == "maps/rotated-images"
    ensures ExtensionFor("image/jpeg") == "jpg"
    ensures NoLineTerminator("temple") && '/' !in "temple"
    ensures EndsWith("maps/rotated-images", CacheDir)
  {
  }

  lemma TempleNames()
    ensures Target("maps/rotated-images", "temple", 90, "jpg").Name() == "temple_rotation90.jpg"
    ensures Target("maps/rotated-images", "temple", 0, "jpg").Name() == "temple_rotation0.jpg"
    ensures "maps/rotated-images/temple_rotation90.jpg" == "maps/rotated-images" + "/" + TargetName("temple", 90, "jpg")
  {
    TempleName90();
    TempleName0();
    TempleVariantPath();
  }

  lemma TempleName90()
    ensures Target("maps/rotated-images", "temple", 90, "jpg").Name() == "temple_rotation90.jpg"
  {
    SmallAngles();
    NameParts(Target("maps/rotated-images", "temple", 90, "jpg"), "90");
  }

  lemma TempleName0()
    ensures Target("maps/rotated-images", "temple", 0, "jpg").Name() == "temple_rotation0.jpg"
  {
    SmallAngles();
    NameParts(Target("maps/rotated-images", "temple", 0, "jpg"), "0");
  }

  lemma TempleVariantPath()
    ensures "maps/rotated-images/temple_rotation90.jpg" == "maps/rotated-images" + "/" + TargetName("temple", 90, "jpg")
  {
    SmallAngles();
  }

  lemma SmallAngles()
    ensures NormalizeAngle(90) == 90 && NormalizeAngle(0) == 0
    ensures Show(90) == "90" && Show(0) == "0"
  {
    assert Show(9) == "9";
  }

  lemma NameParts(t: Target, digits: string)
    requires Show(t.Angle()) == digits
    ensures t.Name() == t.base + RotationMarker + digits + "." + t.ext
  {
  }

  /** Rotating `maps/temple.jpg` by 90 degrees writes
   *  `maps/rotated-images/temple_rotation90.jpg`. */
  lemma TempleRotatedOnce()
    ensures var t := DeriveTarget("maps/temple.jpg", 90, "image/jpeg");
            t.dir == "maps/rotated-images" && t.Name() == "temple_rotation90.jpg"
  {
    TempleSource();
    TargetOfSource("maps/temple.jpg", SourceName("maps", "temple", 0, false), 90, "image/jpeg");
    TempleParts();
    TempleNames();
  }

  /** Rotating that variant by -90 degrees stays in the cache directory and
   *  names the unrotated variant `temple_rotation0.jpg`. */
  lemma TempleRotatedBack()
    ensures var t := DeriveTarget("maps/rotated-images/temple_rotation90.jpg", -90, "image/jpeg");
            t.dir == "maps/rotated-images" && t.Name() == "temple_rotation0.jpg"
  {
    TempleNames();
    TempleParts();
    RederiveVariant("maps/rotated-images", "temple", 90, "jpg", -90, "image/jpeg");
  }

  /** Any directory whose name merely ends in `rotated-images` counts as the
   *  cache: a variant in `maps/old-rotated-images` is rotated in place there,
   *  not into `maps/old-rotated-images/rotated-images`. */
  lemma OldCacheDirKept()
    ensures CacheDirectory("maps/old-rotated-images", true) == "maps/old-rotated-images"
    ensures var t := DeriveTarget("maps/old-rotated-images/temple_rotation90.jpg", 90, "image/jpeg");
            t.dir == "maps/old-rotated-images" && t.dir != "maps/old-rotated-images/" + CacheDir
  {
    var dir, p := "maps/old-rotated-images", "maps/old-rotated-images/temple_rotation90.jpg";
    OldCacheSuffix(dir);
    OldCachePath(dir, p);
    TempleParts();
    RederiveVariant(dir, "temple", 90, "jpg", 90, "image/jpeg");
  }

  lemma OldCacheSuffix(dir: string)
    requires dir == "maps/old-rotated-images"
    ensures EndsWith(dir, CacheDir)
  {
    assert dir[|dir| - |CacheDir|..] == CacheDir;
  }

  lemma OldCachePath(dir: string, p: string)
    requires dir == "maps/old-rotated-images"
    requires p == "maps/old-rotated-images/temple_rotation90.jpg"
    ensures p == dir + "/" + TargetName("temple", 90, "jpg")
  {
    SmallAngles();
  }
}
