/** Thumbnail geometry: the squash ratio of a drawn column and the crop rectangle. */
module Images {
  import opened Collections

  // ----- the squash ratio -----

  /**
   * The column is one pixel wide, four bytes to a row, the last of them its opacity: k rows are drawn and then it turns
   * transparent, or k is an end of it.
   */
  predicate IsEdge(data: seq<bv8>, ih: int, k: int)
    requires |data| == 4 * ih
  {
    && 0 <= k <= ih
    && (k > 0 ==> data[4 * (k - 1) + 3] != 0)
    && (k < ih ==> data[4 * k + 3] == 0)
  }

  predicate Opaque(data: seq<bv8>, row: int)
    requires 0 <= row && 4 * row + 3 < |data|
  {
    data[4 * row + 3] != 0
  }

  /** k rows of ih as a ratio, where no rows at all count as every row. */
  predicate IsRatio(ratio: real, k: int, ih: int) { if k == 0 then ratio == 1.0 else ratio * ih as real == k as real }

  /** The ratio is the height of some edge of the column. */
  ghost predicate IsSquashRatio(data: seq<bv8>, ih: int, ratio: real)
    requires ih > 0 && |data| == 4 * ih
  {
    exists k :: IsEdge(data, ih, k) && IsRatio(ratio, k, ih)
  }

  /** The column is opaque down to row m and transparent below. */
  ghost predicate DrawnTo(data: seq<bv8>, ih: int, m: int)
    requires |data| == 4 * ih
  {
    0 <= m <= ih && forall row | 0 <= row < ih :: data[4 * row + 3] != 0 <==> row < m
  }

  /** Whatever the column looks like, the search ends at an edge of it; a column drawn to row m gives m rows. */
  method DetectVerticalSquash(data: array<bv8>, ih: int) returns (ratio: real)
    requires ih > 0 && data.Length == 4 * ih
    ensures IsSquashRatio(data[..], ih, ratio)
    ensures forall m | DrawnTo(data[..], ih, m) :: if m == 0 then ratio == 1.0 else ratio * ih as real == m as real
  {
    hide IsSquashRatio, DrawnTo, Opaque;
    var py := FindEdge(data, ih);
    ratio := py as real / ih as real;
    RatioZero(py, ih);
    if ratio == 0.0 {
      ratio := 1.0;
    }
    EdgeGivesRatio(data[..], ih, py, ratio);
  }

  /** The search itself: py is a probed row, first the last one and then the middle of what is left. */
  method FindEdge(data: array<bv8>, ih: int) returns (py: int)
    requires ih > 0 && data.Length == 4 * ih
    ensures 0 <= py <= ih && (py > 0 ==> Opaque(data[..], py - 1)) && (py < ih ==> !Opaque(data[..], py))
  {
    hide Opaque;
    var sy, ey := 0, ih;
    py := ih;
    ghost var column := data[..];
    while py > sy
      invariant 0 <= sy <= py <= ey <= ih && (py == ey || py == (ey + sy) / 2)
      invariant py == ey ==> ey == ih && (sy == 0 || sy == ih)
      invariant sy > 0 ==> Opaque(column, sy - 1)
      invariant py < ey ==> !Opaque(column, ey - 1)
      decreases ey - sy + if py == ey then 1 else 0
    {
      var alpha := data[(py - 1) * 4 + 3];
      OpaqueAt(column, py - 1);
      if alpha == 0 {
        ey := py;
      } else {
        sy := py;
      }
      py := (ey + sy) / 2;
    }
  }

  lemma OpaqueAt(data: seq<bv8>, row: int)
    requires 0 <= row && 4 * row + 3 < |data|
    ensures Opaque(data, row) <==> data[row * 4 + 3] != 0
  {
  }

  lemma EdgeGivesRatio(data: seq<bv8>, ih: int, k: int, ratio: real)
    requires ih > 0 && |data| == 4 * ih && 0 <= k <= ih && IsRatio(ratio, k, ih)
    requires (k > 0 ==> Opaque(data, k - 1)) && (k < ih ==> !Opaque(data, k))
    ensures IsSquashRatio(data, ih, ratio)
    ensures forall m | DrawnTo(data, ih, m) :: if m == 0 then ratio == 1.0 else ratio * ih as real == m as real
  {
    assert IsEdge(data, ih, k);
    forall m | DrawnTo(data, ih, m) ensures IsRatio(ratio, m, ih) {
      EdgeOfDrawnTop(data, ih, m, k);
    }
  }

  lemma RatioZero(k: int, ih: int)
    requires ih > 0
    ensures k as real / ih as real == 0.0 <==> k == 0
    ensures k as real / ih as real * ih as real == k as real
  {
    var q := k as real / ih as real;
    assert q * ih as real == k as real;
  }

  /** A column drawn to row m has no other edge. */
  lemma EdgeOfDrawnTop(data: seq<bv8>, ih: int, m: int, k: int)
    requires |data| == 4 * ih && DrawnTo(data, ih, m) && IsEdge(data, ih, k)
    ensures k == m
  {
    assert k < ih ==> (data[4 * k + 3] != 0 <==> k < m);
    assert k > 0 ==> (data[4 * (k - 1) + 3] != 0 <==> k - 1 < m);
  }

  // ----- the crop rectangle -----

  datatype Crop = Crop(srcX: real, srcY: real, srcWidth: real, srcHeight: real, trgWidth: real, trgHeight: real)

  /** The thumbnail size aimed at: a missing side follows the image's proportions. */
  function Target(width: real, height: real, tw: Option<real>, th: Option<real>): (r: (real, real))
    requires width > 0.0 && height > 0.0
  {
    match (tw, th)
    case (None, None) => (width, height)
    case (None, Some(h)) => (width / height * h, h)
    case (Some(w), None) => (w, 1.0 / (width / height) * w)
    case (Some(w), Some(h)) => (w, h)
  }

  predicate Positive(side: Option<real>) { side.Some? ==> side.value > 0.0 }

  lemma TargetPositive(width: real, height: real, tw: Option<real>, th: Option<real>)
    requires width > 0.0 && height > 0.0 && Positive(tw) && Positive(th)
    ensures Target(width, height, tw, th).0 > 0.0 && Target(width, height, tw, th).1 > 0.0
  {
    var r := width / height;
    Quotient(width, height);
    Quotient(1.0, r);
    match (tw, th)
    case (None, Some(h)) => Product(r, h);
    case (Some(w), None) => Product(1.0 / r, w);
    case _ =>
  }

  /** A given side is kept, and a missing one follows the image's proportions; without either it is the image's size. */
  lemma TargetKeeps(width: real, height: real, tw: Option<real>, th: Option<real>)
    requires width > 0.0 && height > 0.0
    ensures var (ow, oh) := Target(width, height, tw, th);
      && (tw.Some? ==> ow == tw.value) && (th.Some? ==> oh == th.value)
      && (tw.None? || th.None? ==> ow * height == oh * width)
      && (tw.None? && th.None? ==> ow == width && oh == height)
  {
    var r := width / height;
    Quotient(width, height);
    Quotient(1.0, r);
    match (tw, th)
    case (None, Some(h)) => assert r * h * height == h * (r * height);
    case (Some(w), None) =>
      assert 1.0 / r * w * width == w * (1.0 / r * (r * height)) == w * (1.0 / r * r * height);
    case _ =>
  }

  /** The crop lies in the image, is centred, has the target's shape, is the largest such, and is not blown up. */
  ghost predicate GoodCrop(c: Crop, width: real, height: real) {
    && Fits(c, width, height) && Centred(c, width, height)
    && c.trgWidth > 0.0 && c.trgHeight > 0.0 && SameShape(c.srcWidth, c.srcHeight, c)
    && (forall w, h | w <= width && h <= height && SameShape(w, h, c) :: w <= c.srcWidth && h <= c.srcHeight)
    && c.trgWidth <= c.srcWidth && c.trgHeight <= c.srcHeight
  }

  /** The crop for a given target size, as one expression. */
  function CropFor(width: real, height: real, ow: real, oh: real): Crop
    requires width > 0.0 && height > 0.0 && ow > 0.0 && oh > 0.0
  {
    var small := height < oh || width < ow;
    var (sw, sh) :=
      if small then (width, height)
      else if width / height > ow / oh then (height * (ow / oh), height)
      else (width, width / (ow / oh));
    Crop((width - sw) / 2.0, (height - sh) / 2.0, sw, sh, if small then width else ow, if small then height else oh)
  }

  /** What the default resize returns, its target filled in as createThumbnail does. */
  method Resize(width: real, height: real, tw: Option<real>, th: Option<real>) returns (info: Crop)
    requires width > 0.0 && height > 0.0 && Positive(tw) && Positive(th)
    ensures var (ow, oh) := Target(width, height, tw, th);
      && ow > 0.0 && oh > 0.0 && info == CropFor(width, height, ow, oh)
      && (info.trgWidth, info.trgHeight) == if width >= ow && height >= oh then (ow, oh) else (width, height)
    ensures GoodCrop(info, width, height)
  {
    hide GoodCrop;
    TargetPositive(width, height, tw, th);
    var srcRatio := width / height;
    var (optWidth, optHeight) := Target(width, height, tw, th);
    var trgRatio := optWidth / optHeight;
    var srcWidth, srcHeight := width, height;
    var trgWidth, trgHeight := optWidth, optHeight;
    if height < optHeight || width < optWidth {
      trgWidth, trgHeight := width, height;
    } else if srcRatio > trgRatio {
      srcHeight := height;
      srcWidth := srcHeight * trgRatio;
    } else {
      srcWidth := width;
      srcHeight := srcWidth / trgRatio;
    }
    info := Crop((width - srcWidth) / 2.0, (height - srcHeight) / 2.0, srcWidth, srcHeight, trgWidth, trgHeight);
    CropForIsGood(width, height, optWidth, optHeight);
  }

  /** For every image and every target size the crop is as good as it can be. */
  lemma CropForIsGood(width: real, height: real, ow: real, oh: real)
    requires width > 0.0 && height > 0.0 && ow > 0.0 && oh > 0.0
    ensures GoodCrop(CropFor(width, height, ow, oh), width, height)
  {
    if height >= oh && width >= ow {
      if width / height > ow / oh {
        CropWide(width, height, ow, oh);
      } else {
        CropTall(width, height, ow, oh);
      }
    }
    FilledIsGood(CropFor(width, height, ow, oh), width, height);
  }

  lemma FilledIsGood(c: Crop, width: real, height: real)
    requires 0.0 < c.trgWidth <= c.srcWidth <= width && 0.0 < c.trgHeight <= c.srcHeight <= height
    requires (c.srcWidth == width || c.srcHeight == height) && SameShape(c.srcWidth, c.srcHeight, c)
    requires c.srcX == (width - c.srcWidth) / 2.0 && c.srcY == (height - c.srcHeight) / 2.0
    ensures GoodCrop(c, width, height)
  {
    forall w, h | w <= width && h <= height && SameShape(w, h, c) ensures w <= c.srcWidth && h <= c.srcHeight {
      Largest(w, h, c.srcWidth, c.srcHeight, c.trgWidth, c.trgHeight, width, height);
    }
  }

  predicate Fits(c: Crop, width: real, height: real) {
    && 0.0 <= c.srcX && c.srcX + c.srcWidth <= width && 0.0 < c.srcWidth
    && 0.0 <= c.srcY && c.srcY + c.srcHeight <= height && 0.0 < c.srcHeight
  }

  /** Equal margins on opposite sides. */
  predicate Centred(c: Crop, width: real, height: real) {
    c.srcX == width - (c.srcX + c.srcWidth) && c.srcY == height - (c.srcY + c.srcHeight)
  }

  /** w : h is the target's proportion. */
  predicate SameShape(w: real, h: real, c: Crop) { w * c.trgHeight == h * c.trgWidth }

  lemma Product(a: real, b: real)
    requires a > 0.0 && b > 0.0
    ensures a * b > 0.0
  {
  }

  lemma Quotient(a: real, b: real)
    requires a > 0.0 && b > 0.0
    ensures a / b > 0.0 && a / b * b == a
  {
  }

  lemma Scale(a: real, b: real, c: real)
    requires a <= b && c > 0.0
    ensures a * c <= b * c
  {
  }

  lemma Unscale(a: real, b: real, c: real)
    requires a * c <= b * c && c > 0.0
    ensures a <= b
  {
    assert (a - b) * c == a * c - b * c;
    if a > b {
      Product(a - b, c);
    }
  }

  /** The image is wider than the target: keep its height. */
  lemma CropWide(width: real, height: real, ow: real, oh: real)
    requires width > 0.0 && height >= oh > 0.0 && width >= ow > 0.0 && width / height > ow / oh
    ensures var w := height * (ow / oh); 0.0 < w <= width && ow <= w && w * oh == height * ow
  {
    var r := ow / oh;
    Quotient(ow, oh);
    Quotient(width, height);
    Product(height, r);
    Scale(r, width / height, height);
    Scale(oh, height, r);
    assert height * r * oh == height * (r * oh);
  }

  /** The image is at least as tall as the target's shape: keep its width. */
  lemma CropTall(width: real, height: real, ow: real, oh: real)
    requires width > 0.0 && height >= oh > 0.0 && width >= ow > 0.0 && width / height <= ow / oh
    ensures var h := width / (ow / oh); 0.0 < h <= height && oh <= h && width * oh == h * ow
  {
    var r := ow / oh;
    Quotient(ow, oh);
    Quotient(width, height);
    Quotient(width, r);
    var h := width / r;
    Scale(width / height, r, height);
    Unscale(h, height, r);
    assert oh * r == ow;
    Unscale(oh, h, r);
    assert h * ow == h * (r * oh) == h * r * oh;
  }

  /** Two rectangles of one shape compare the same way in both sides, so filling one side of the image is largest. */
  lemma Largest(w: real, h: real, sw: real, sh: real, tw: real, th: real, width: real, height: real)
    requires tw > 0.0 && th > 0.0 && w <= width && h <= height && (sw == width || sh == height)
    requires w * th == h * tw && sw * th == sh * tw
    ensures w <= sw && h <= sh
  {
    if sw == width {
      Scale(w, sw, th);
      Unscale(h, sh, tw);
    } else {
      Scale(h, sh, tw);
      Unscale(w, sw, th);
    }
  }
}
