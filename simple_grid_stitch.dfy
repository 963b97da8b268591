/** The baseline composite: saved tiles are recovered from their file names
    and pasted side by side on a zero canvas, without registration. */
module SimpleGridStitch {
  import opened Wrappers
  import opened Text
  import opened Raster
  import opened SweepAndStitch

  /** A tile's grid coordinates as read back from its name. */
  type Key = (int, int)

  /** The name under which the sweep saves tile (ix, iy): `img_x{ix}_y{iy}.png`. */
  function TileName(ix: nat, iy: nat): string {
    "img_x" + Digits(ix) + "_y" + Digits(iy) + ".png"
  }

  /** The glob `img_*.png`. */
  predicate MatchesTileGlob(name: string) {
    |name| >= 8 && name[..4] == "img_" && name[|name| - 4..] == ".png"
  }

  /** `s[1:]`, which is empty for an empty string. */
  function Drop1(s: string): string {
    if |s| == 0 then "" else s[1..]
  }

  /** Drops ".png", splits on '_', and reads the integers after the first
      character of the second and third pieces; None where Python skips the
      file (fewer than three pieces, or a ValueError). */
  function ParseTileName(name: string): Option<Key> {
    var parts := Split(ReplaceAll(name, ".png", ""), '_');
    if |parts| < 3 then None
    else
      match ParseInt(Drop1(parts[1]))
      case None => None
      case Some(x) =>
        match ParseInt(Drop1(parts[2]))
        case None => None
        case Some(y) => Some((x, y))
  }

  lemma NoDotInDigits(n: nat)
    ensures '.' !in Digits(n) && '_' !in Digits(n)
  {
  }

  /** Every name the sweep writes matches the glob and parses back to its cell. */
  lemma ParseTileNameRoundTrip(ix: nat, iy: nat)
    ensures MatchesTileGlob(TileName(ix, iy))
    ensures ParseTileName(TileName(ix, iy)) == Some((ix, iy))
  {
    var dx, dy := Digits(ix), Digits(iy);
    NoDotInDigits(ix);
    NoDotInDigits(iy);
    TileNameGlob(dx, dy);
    assert TileName(ix, iy) == "img_" + ("x" + dx) + "_" + ("y" + dy) + ".png";
    var parts := NameParts("x" + dx, "y" + dy);
    assert Drop1(parts[1]) == dx;
    assert Drop1(parts[2]) == dy;
    ParseDigits(ix);
    ParseDigits(iy);
  }

  lemma TileNameGlob(dx: string, dy: string)
    ensures MatchesTileGlob("img_x" + dx + "_y" + dy + ".png")
  {
    var name := "img_x" + dx + "_y" + dy + ".png";
    assert name[..4] == "img_";
    assert name[|name| - 4..] == ".png";
  }

  /** Without its suffix, `img_{x}_{y}.png` splits into "img", x and y. */
  lemma NameParts(x: string, y: string) returns (parts: seq<string>)
    requires '.' !in x && '_' !in x && '.' !in y && '_' !in y
    ensures parts == Split(ReplaceAll("img_" + x + "_" + y + ".png", ".png", ""), '_')
    ensures parts == ["img", x, y]
  {
    var stem := "img_" + x + "_" + y;
    assert "img_" + x + "_" + y + ".png" == stem + ".png";
    assert '.' !in stem by {
      assert stem == "img_" + (x + ("_" + y));
    }
    ReplaceSuffix(stem, ".png", "");
    assert ReplaceAll(stem + ".png", ".png", "") == stem;
    assert stem == "img" + ['_'] + (x + ['_'] + y);
    SplitJoin("img", '_', x + ['_'] + y);
    SplitJoin(x, '_', y);
    SplitNoSep(y, '_');
    parts := Split(stem, '_');
  }

  /** Distinct cells are saved under distinct names. */
  lemma TileNameInjective(a: nat, b: nat, c: nat, d: nat)
    requires TileName(a, b) == TileName(c, d)
    ensures a == c && b == d
  {
    ParseTileNameRoundTrip(a, b);
    ParseTileNameRoundTrip(c, d);
  }

  /** Too few pieces: a name `img_{x}.png` with no further underscore, such
      as `img_x3.png`, is skipped. */
  lemma OneUnderscoreSkipped(x: string)
    requires '.' !in x && '_' !in x
    ensures ParseTileName("img_" + x + ".png") == None
  {
    var stem := "img_" + x;
    assert "img_" + x + ".png" == stem + ".png";
    assert '.' !in stem;
    ReplaceSuffix(stem, ".png", "");
    assert ReplaceAll(stem + ".png", ".png", "") == stem;
    assert stem == "img" + ['_'] + x;
    SplitJoin("img", '_', x);
    SplitNoSep(x, '_');
    assert |Split(stem, '_')| == 2;
  }

  /** A name whose second piece, after its first character, is not an
      integer is skipped, whatever its third piece. */
  lemma NonNumericX(x: string, y: string)
    requires '_' !in x && '_' !in y && '.' !in x && '.' !in y
    requires ParseInt(Drop1(x)) == None
    ensures ParseTileName("img_" + x + "_" + y + ".png") == None
  {
    var parts := NameParts(x, y);
    assert Drop1(parts[1]) == Drop1(x);
  }

  // ---------------------------------------------------------------------
  // Loading

  /** A directory entry: its file name and what reading it as an image gives. */
  datatype Entry = Entry(name: string, image: Option<Frame>)

  /** The coordinates an entry is filed under, if it is a tile image at all:
      its name matches the glob and parses. */
  function EntryKey(e: Entry): Option<Key> {
    if MatchesTileGlob(e.name) then ParseTileName(e.name) else None
  }

  /** The entry contributes image `k`: it is filed under `k` and it reads. */
  predicate Loads(e: Entry, k: Key, key: Entry -> Option<Key>) {
    key(e) == Some(k) && e.image.Some?
  }

  function Add(images: map<Key, Frame>, e: Entry, key: Entry -> Option<Key>): map<Key, Frame> {
    if key(e).Some? && e.image.Some? then images[key(e).value := e.image.value] else images
  }

  /** The images dictionary after the entries, in listing order, each filed as `key` says. */
  function Collect(entries: seq<Entry>, key: Entry -> Option<Key>): map<Key, Frame>
    decreases |entries|
  {
    if |entries| == 0 then map[] else Add(Collect(entries[..|entries| - 1], key), entries[|entries| - 1], key)
  }

  /** A key is present exactly when some entry loads it. */
  lemma {:induction false} CollectKeys(entries: seq<Entry>, k: Key, key: Entry -> Option<Key>)
    ensures k in Collect(entries, key) <==> exists i :: 0 <= i < |entries| && Loads(entries[i], k, key)
    decreases |entries|
  {
    if |entries| > 0 {
      var prefix := entries[..|entries| - 1];
      CollectKeys(prefix, k, key);
      assert forall i :: 0 <= i < |prefix| ==> prefix[i] == entries[i];
      if !Loads(entries[|entries| - 1], k, key) {
        assert k in Collect(entries, key) <==> k in Collect(prefix, key);
        if exists i :: 0 <= i < |entries| && Loads(entries[i], k, key) {
          var i :| 0 <= i < |entries| && Loads(entries[i], k, key);
          assert i < |prefix| && Loads(prefix[i], k, key);
        }
      }
    }
  }

  /** A present key holds the image of the last entry that loads it: later
      duplicates overwrite earlier ones. */
  lemma {:induction false} CollectLastWins(entries: seq<Entry>, i: nat, k: Key, key: Entry -> Option<Key>)
    requires i < |entries| && Loads(entries[i], k, key)
    requires forall j :: i < j < |entries| ==> !Loads(entries[j], k, key)
    ensures k in Collect(entries, key) && Collect(entries, key)[k] == entries[i].image.value
    decreases |entries|
  {
    var prefix := entries[..|entries| - 1];
    if i < |entries| - 1 {
      assert !Loads(entries[|entries| - 1], k, key);
      assert forall j :: i < j < |prefix| ==> prefix[j] == entries[j];
      CollectLastWins(prefix, i, k, key);
    }
  }

  /** `load_images`: fills the dictionary entry by entry. */
  method LoadImages(entries: seq<Entry>) returns (images: map<Key, Frame>)
    ensures images == Collect(entries, EntryKey)
  {
    images := map[];
    for i := 0 to |entries|
      invariant images == Collect(entries[..i], EntryKey)
    {
      var e := entries[i];
      CollectSnoc(entries, i, EntryKey);
      if MatchesTileGlob(e.name) {
        var key := ParseTileName(e.name);
        if key.Some? && e.image.Some? {
          images := images[key.value := e.image.value];
        }
      }
    }
    assert entries[..|entries|] == entries;
  }

  lemma CollectSnoc(entries: seq<Entry>, i: nat, key: Entry -> Option<Key>)
    requires i < |entries|
    ensures Collect(entries[..i + 1], key) == Add(Collect(entries[..i], key), entries[i], key)
  {
    assert entries[..i + 1][..i] == entries[..i];
  }

  // ---------------------------------------------------------------------
  // Placement

  datatype Bounds = Bounds(minX: int, maxX: int, minY: int, maxY: int)

  /** The least and greatest coordinates over the keys, each attained. */
  predicate IsBounds(keys: set<Key>, b: Bounds) {
    && (forall k :: k in keys ==> b.minX <= k.0 <= b.maxX && b.minY <= k.1 <= b.maxY)
    && (exists k :: k in keys && k.0 == b.minX) && (exists k :: k in keys && k.0 == b.maxX)
    && (exists k :: k in keys && k.1 == b.minY) && (exists k :: k in keys && k.1 == b.maxY)
  }

  /** `min(x_coords), max(x_coords)` and likewise for y. */
  method FindBounds(keys: set<Key>) returns (b: Bounds)
    requires keys != {}
    ensures IsBounds(keys, b)
  {
    var k0 :| k0 in keys;
    b := Bounds(k0.0, k0.0, k0.1, k0.1);
    var remaining := keys - {k0};
    while remaining != {}
      invariant remaining <= keys && k0 !in remaining
      invariant IsBounds(keys - remaining, b)
      decreases |remaining|
    {
      var k :| k in remaining;
      ghost var seen := keys - remaining;
      b := Bounds(if k.0 < b.minX then k.0 else b.minX, if k.0 > b.maxX then k.0 else b.maxX,
                  if k.1 < b.minY then k.1 else b.minY, if k.1 > b.maxY then k.1 else b.maxY);
      remaining := remaining - {k};
      assert keys - remaining == seen + {k};
    }
    assert keys - remaining == keys;
  }

  /** Every image has the given height and width. */
  predicate Uniform(images: map<Key, Frame>, h: nat, w: nat) {
    forall k :: k in images ==> images[k].Height() == h && images[k].Width() == w
  }

  /** The composite pixel (r, c): that of the image whose block contains it,
      or black where the grid has no image. */
  function GridPixel(images: map<Key, Frame>, b: Bounds, h: nat, w: nat, r: nat, c: nat): Pixel
    requires h > 0 && w > 0 && Uniform(images, h, w)
  {
    var key := (b.minX + c / w, b.minY + r / h);
    if key in images then images[key].rows[r % h][c % w] else 0
  }

  lemma MulMono(a: int, b: int, h: nat)
    requires a <= b
    ensures a * h <= b * h
  {
    assert b * h - a * h == (b - a) * h;
  }

  /** Euclidean division puts `r` in the block of its quotient. */
  lemma DivBounds(r: int, h: int)
    requires h > 0
    ensures (r / h) * h <= r < (r / h) * h + h
  {
  }

  lemma DivBlock(r: int, q: int, h: int)
    requires h > 0 && q * h <= r < q * h + h
    ensures r / h == q && r % h == r - q * h
  {
    var d := r / h;
    DivBounds(r, h);
    if d < q {
      MulMono(d, q - 1, h);
    } else if d > q {
      MulMono(q + 1, d, h);
    }
  }

  /** Image (x, y) occupies rows [(y - minY) h, (y - minY + 1) h) and columns
      [(x - minX) w, (x - minX + 1) w) of the composite, pixel for pixel. */
  lemma GridPixelBlock(images: map<Key, Frame>, b: Bounds, h: nat, w: nat, k: Key, i: nat, j: nat)
    requires h > 0 && w > 0 && Uniform(images, h, w)
    requires k in images && b.minX <= k.0 && b.minY <= k.1 && i < h && j < w
    ensures 0 <= (k.1 - b.minY) * h && 0 <= (k.0 - b.minX) * w
    ensures GridPixel(images, b, h, w, (k.1 - b.minY) * h + i, (k.0 - b.minX) * w + j) == images[k].rows[i][j]
  {
    MulMono(0, k.1 - b.minY, h);
    MulMono(0, k.0 - b.minX, w);
    DivBlock((k.1 - b.minY) * h + i, k.1 - b.minY, h);
    DivBlock((k.0 - b.minX) * w + j, k.0 - b.minX, w);
  }

  /** Pixels of a grid cell that has no image stay zero. */
  lemma GridPixelEmpty(images: map<Key, Frame>, b: Bounds, h: nat, w: nat, k: Key, i: nat, j: nat)
    requires h > 0 && w > 0 && Uniform(images, h, w)
    requires k !in images && b.minX <= k.0 && b.minY <= k.1 && i < h && j < w
    ensures 0 <= (k.1 - b.minY) * h && 0 <= (k.0 - b.minX) * w
    ensures GridPixel(images, b, h, w, (k.1 - b.minY) * h + i, (k.0 - b.minX) * w + j) == 0
  {
    MulMono(0, k.1 - b.minY, h);
    MulMono(0, k.0 - b.minX, w);
    DivBlock((k.1 - b.minY) * h + i, k.1 - b.minY, h);
    DivBlock((k.0 - b.minX) * w + j, k.0 - b.minX, w);
  }

  /** `composite[y0:y0+h, x0:x0+w] = img`. */
  method PlaceBlock(a: array2<Pixel>, img: Frame, y0: nat, x0: nat)
    requires y0 + img.Height() <= a.Length0 && x0 + img.Width() <= a.Length1
    modifies a
    ensures forall r, c :: 0 <= r < a.Length0 && 0 <= c < a.Length1 ==>
      a[r, c] == if y0 <= r < y0 + img.Height() && x0 <= c < x0 + img.Width() then img.rows[r - y0][c - x0] else old(a[r, c])
  {
    var h, w := img.Height(), img.Width();
    for i := 0 to h
      invariant forall r, c :: 0 <= r < a.Length0 && 0 <= c < a.Length1 ==>
        a[r, c] == if y0 <= r < y0 + i && x0 <= c < x0 + w then img.rows[r - y0][c - x0] else old(a[r, c])
    {
      for j := 0 to w
        invariant forall r, c :: 0 <= r < a.Length0 && 0 <= c < a.Length1 ==>
          a[r, c] == if (y0 <= r < y0 + i && x0 <= c < x0 + w) || (r == y0 + i && x0 <= c < x0 + j)
                     then img.rows[r - y0][c - x0] else old(a[r, c])
      {
        a[y0 + i, x0 + j] := img.rows[i][j];
      }
    }
  }

  /** Block `g` of `n` blocks of size `h` lies within the `n h` cells. */
  lemma BlockFits(g: nat, n: nat, h: nat)
    requires g < n
    ensures 0 <= g * h && g * h + h <= n * h
  {
    assert (g + 1) * h == g * h + h;
    MulMono(g + 1, n, h);
  }

  /** A composite pixel lies in the block of cell `k` exactly when `k` owns
      it, and then it shows the matching pixel of that image. */
  lemma OwnerBlock(images: map<Key, Frame>, b: Bounds, h: nat, w: nat, k: Key, gx: nat, gy: nat, r: nat, c: nat)
    requires h > 0 && w > 0 && Uniform(images, h, w) && k in images
    requires gx == k.0 - b.minX && gy == k.1 - b.minY
    ensures (gy * h <= r < gy * h + h && gx * w <= c < gx * w + w) <==> Owner(b, h, w, r, c) == k
    ensures Owner(b, h, w, r, c) == k ==> GridPixel(images, b, h, w, r, c) == images[k].rows[r - gy * h][c - gx * w]
  {
    if gy * h <= r < gy * h + h && gx * w <= c < gx * w + w {
      DivBlock(r, gy, h);
      DivBlock(c, gx, w);
    }
    if Owner(b, h, w, r, c) == k {
      DivBounds(r, h);
      DivBounds(c, w);
    }
  }

  /** Which image's block a composite pixel falls in. */
  function Owner(b: Bounds, h: nat, w: nat, r: nat, c: nat): Key
    requires h > 0 && w > 0
  {
    (b.minX + c / w, b.minY + r / h)
  }

  /** The canvas shows every image of `placed` in its block and black elsewhere. */
  ghost predicate Painted(a: array2<Pixel>, images: map<Key, Frame>, b: Bounds, h: nat, w: nat, placed: set<Key>)
    requires h > 0 && w > 0 && Uniform(images, h, w)
    reads a
  {
    forall r: nat, c: nat :: r < a.Length0 && c < a.Length1 ==>
      a[r, c] == if Owner(b, h, w, r, c) in placed then GridPixel(images, b, h, w, r, c) else 0
  }

  /** Once every image is placed, each pixel is the one the grid layout gives. */
  lemma PaintedAll(a: array2<Pixel>, images: map<Key, Frame>, b: Bounds, h: nat, w: nat)
    requires h > 0 && w > 0 && Uniform(images, h, w)
    requires Painted(a, images, b, h, w, images.Keys)
    ensures forall r, c :: 0 <= r < a.Length0 && 0 <= c < a.Length1 ==> a[r, c] == GridPixel(images, b, h, w, r, c)
  {
    forall r: nat, c: nat | r < a.Length0 && c < a.Length1
      ensures a[r, c] == GridPixel(images, b, h, w, r, c)
    {
      if Owner(b, h, w, r, c) !in images.Keys {
        assert GridPixel(images, b, h, w, r, c) == 0;
      }
    }
  }

  /** One iteration of the placement loop: image `k` pasted into its block. */
  method PlaceImage(a: array2<Pixel>, images: map<Key, Frame>, b: Bounds, h: nat, w: nat, k: Key, ghost placed: set<Key>)
    requires h > 0 && w > 0 && Uniform(images, h, w) && k in images && IsBounds(images.Keys, b)
    requires a.Length0 == (b.maxY - b.minY + 1) * h && a.Length1 == (b.maxX - b.minX + 1) * w
    requires Painted(a, images, b, h, w, placed)
    modifies a
    ensures Painted(a, images, b, h, w, placed + {k})
  {
    var gx: nat, gy: nat := k.0 - b.minX, k.1 - b.minY;
    BlockFits(gy, b.maxY - b.minY + 1, h);
    BlockFits(gx, b.maxX - b.minX + 1, w);
    var y0: nat, x0: nat := gy * h, gx * w;
    PlaceBlock(a, images[k], y0, x0);
    forall r: nat, c: nat | r < a.Length0 && c < a.Length1
      ensures a[r, c] == if Owner(b, h, w, r, c) in placed + {k} then GridPixel(images, b, h, w, r, c) else 0
    {
      OwnerBlock(images, b, h, w, k, gx, gy, r, c);
    }
  }

  /** `simple_grid_stitch`: None for no images; otherwise a zero canvas of
      (maxX - minX + 1) w by (maxY - minY + 1) h, where h and w are those of
      the sample image, with every image pasted into its block. */
  method SimpleGridStitchImages(images: map<Key, Frame>, sample: Key)
    returns (composite: Option<array2<Pixel>>, b: Bounds)
    requires images != map[] ==> sample in images
    requires sample in images ==> Uniform(images, images[sample].Height(), images[sample].Width())
    ensures images == map[] <==> composite.None?
    ensures composite.Some? ==>
      var a, h, w := composite.value, images[sample].Height(), images[sample].Width();
      && fresh(a) && IsBounds(images.Keys, b)
      && a.Length0 == (b.maxY - b.minY + 1) * h && a.Length1 == (b.maxX - b.minX + 1) * w
      && forall r, c :: 0 <= r < a.Length0 && 0 <= c < a.Length1 ==> a[r, c] == GridPixel(images, b, h, w, r, c)
  {
    if images == map[] {
      return None, Bounds(0, 0, 0, 0);
    }
    b := FindBounds(images.Keys);
    var nx: nat := b.maxX - b.minX + 1;
    var ny: nat := b.maxY - b.minY + 1;
    var h, w := images[sample].Height(), images[sample].Width();
    var a := new Pixel[ny * h, nx * w]((_, _) => 0);
    assert Painted(a, images, b, h, w, {});
    PlaceAll(a, images, b, h, w);
    return Some(a), b;
  }

  /** The placement loop over the images, in no particular order. */
  method PlaceAll(a: array2<Pixel>, images: map<Key, Frame>, b: Bounds, h: nat, w: nat)
    requires h > 0 && w > 0 && Uniform(images, h, w) && IsBounds(images.Keys, b)
    requires a.Length0 == (b.maxY - b.minY + 1) * h && a.Length1 == (b.maxX - b.minX + 1) * w
    requires Painted(a, images, b, h, w, {})
    modifies a
    ensures forall r, c :: 0 <= r < a.Length0 && 0 <= c < a.Length1 ==> a[r, c] == GridPixel(images, b, h, w, r, c)
  {
    var remaining := images.Keys;
    while remaining != {}
      invariant remaining <= images.Keys
      invariant Painted(a, images, b, h, w, images.Keys - remaining)
      decreases |remaining|
    {
      var k :| k in remaining;
      PlaceImage(a, images, b, h, w, k, images.Keys - remaining);
      assert images.Keys - remaining + {k} == images.Keys - (remaining - {k});
      remaining := remaining - {k};
    }
    assert images.Keys - remaining == images.Keys;
    PaintedAll(a, images, b, h, w);
  }
}
