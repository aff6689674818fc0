/** Edge-replicating image padding: `extend_image_edges` builds an image
    `2 * padding` pixels taller and wider than the original by nine slice
    assignments into a zero-filled array, and the image handler pads every
    downloaded tile by 16 pixels before it is uploaded. */
module Images {
  import opened Common
  import opened Strings

  /** One 8-bit colour channel. */
  newtype Channel = x: int | 0 <= x < 256

  /** An RGB pixel (the new array has exactly three channels). */
  datatype Pixel = Pixel(r: Channel, g: Channel, b: Channel)

  /** What `np.zeros` fills the new array with. */
  const Black := Pixel(0, 0, 0)

  // ---------------------------------------------------------------------
  // Slices

  /** The start of the slice `-p:` on an axis of length `n` (Python reads
      `-0` as `0`, so `-0:` is the whole axis). */
  function NegStart(n: nat, p: nat): (s: nat)
    ensures s <= n
    ensures p == 0 ==> s == 0
    ensures 0 < p <= n ==> s == n - p
  {
    if p == 0 then 0 else if p <= n then n - p else 0
  }

  /** How a slice assignment picks the original's index along one axis: a
      fixed index (`img[:, 0:1]`, broadcast along the axis) or the target
      index shifted back by the padding (`img_array` placed at `padding`). */
  datatype Ix = At(k: int) | Offset(d: int)

  function Apply(ix: Ix, i: int): int {
    match ix
    case At(k) => k
    case Offset(d) => i - d
  }

  /** Every target index in `[lo, hi)` picks an index of the original inside `[0, n)`. */
  predicate Maps(ix: Ix, lo: int, hi: int, n: int) {
    forall i :: lo <= i < hi ==> 0 <= Apply(ix, i) < n
  }

  /** Row `i` of one slice assignment: `out[i, c0:c1] = <pixels of img>`. */
  method FillRow(out: array2<Pixel>, img: array2<Pixel>, i: nat, c0: nat, c1: nat, ri: Ix, ci: Ix)
    requires out != img
    requires i < out.Length0 && c1 <= out.Length1
    requires 0 <= Apply(ri, i) < img.Length0 && Maps(ci, c0, c1, img.Length1)
    modifies out
    ensures forall a, b :: 0 <= a < out.Length0 && 0 <= b < out.Length1 ==>
      out[a, b] == if a == i && c0 <= b < c1 then img[Apply(ri, a), Apply(ci, b)] else old(out[a, b])
  {
    var j := c0;
    while j < c1
      invariant c0 <= j || c1 <= c0
      invariant forall a, b :: 0 <= a < out.Length0 && 0 <= b < out.Length1 ==>
        out[a, b] == if a == i && c0 <= b < j && b < c1 then img[Apply(ri, a), Apply(ci, b)] else old(out[a, b])
    {
      out[i, j] := img[Apply(ri, i), Apply(ci, j)];
      j := j + 1;
    }
  }

  /** One slice assignment `out[r0:r1, c0:c1] = <pixels of img>`. */
  method Fill(out: array2<Pixel>, img: array2<Pixel>, r0: nat, r1: nat, c0: nat, c1: nat, ri: Ix, ci: Ix)
    requires out != img
    requires r1 <= out.Length0 && c1 <= out.Length1
    requires Maps(ri, r0, r1, img.Length0) && Maps(ci, c0, c1, img.Length1)
    modifies out
    ensures forall i, j :: 0 <= i < out.Length0 && 0 <= j < out.Length1 ==>
      out[i, j] == if r0 <= i < r1 && c0 <= j < c1 then img[Apply(ri, i), Apply(ci, j)] else old(out[i, j])
  {
    var i := r0;
    while i < r1
      invariant r0 <= i || r1 <= r0
      invariant forall a, b :: 0 <= a < out.Length0 && 0 <= b < out.Length1 ==>
        out[a, b] == if r0 <= a < i && a < r1 && c0 <= b < c1 then img[Apply(ri, a), Apply(ci, b)] else old(out[a, b])
    {
      FillRow(out, img, i, c0, c1, ri, ci);
      i := i + 1;
    }
  }

  // ---------------------------------------------------------------------
  // Where each output pixel comes from

  /** The original pixel that ends up at `(i, j)` after the centre, left and
      right assignments, the right margin starting at column `colFrom`;
      `None` is a pixel no assignment reaches, left black. */
  function RowsSource(h: int, w: int, p: int, colFrom: int, i: int, j: int): Option<(int, int)> {
    if !(p <= i < p + h) then None
    else if colFrom <= j then Some((i - p, w - 1))
    else if j < p then Some((i - p, 0))
    else if j < p + w then Some((i - p, j - p))
    else None
  }

  /** The same after the top and bottom assignments too, the bottom margin
      starting at row `rowFrom`; a later assignment overwrites an earlier one. */
  function SidesSource(h: int, w: int, p: int, rowFrom: int, colFrom: int, i: int, j: int): Option<(int, int)> {
    if p <= j < p + w && rowFrom <= i then Some((h - 1, j - p))
    else if p <= j < p + w && i < p then Some((0, j - p))
    else RowsSource(h, w, p, colFrom, i, j)
  }

  /** The original pixel that ends up at `(i, j)` after all nine assignments. */
  function Source(h: int, w: int, p: int, rowFrom: int, colFrom: int, i: int, j: int): Option<(int, int)> {
    var top, bottom, left, right := i < p, rowFrom <= i, j < p, colFrom <= j;
    if bottom && right then Some((h - 1, w - 1))
    else if bottom && left then Some((h - 1, 0))
    else if top && right then Some((0, w - 1))
    else if top && left then Some((0, 0))
    else SidesSource(h, w, p, rowFrom, colFrom, i, j)
  }

  function Clamp(k: int, hi: int): int {
    if k < 0 then 0 else if k > hi then hi else k
  }

  /** With the right and bottom margins starting right after the copied
      original, every output pixel is the original pixel at the clamped
      position: edge pixels repeat outward and the four corners fill the
      corner blocks; no pixel is left black. */
  lemma SourceIsClamp(h: nat, w: nat, p: nat, i: int, j: int)
    requires h >= 1 && w >= 1
    requires 0 <= i < h + 2 * p && 0 <= j < w + 2 * p
    ensures Source(h, w, p, p + h, p + w, i, j) == Some((Clamp(i - p, h - 1), Clamp(j - p, w - 1)))
  {
  }

  /** As written, the margins start at `-padding`: for a positive padding
      this is right after the copied original, so the result is the clamp. */
  lemma AsWrittenPositive(h: nat, w: nat, p: nat, i: int, j: int)
    requires h >= 1 && w >= 1 && p >= 1
    requires 0 <= i < h + 2 * p && 0 <= j < w + 2 * p
    ensures Source(h, w, p, NegStart(h + 2 * p, p), NegStart(w + 2 * p, p), i, j)
      == Some((Clamp(i - p, h - 1), Clamp(j - p, w - 1)))
  {
    SourceIsClamp(h, w, p, i, j);
  }

  /** As written with padding 0, `-0:` covers the whole image and the last
      assignment paints every pixel with the bottom-right one. */
  lemma AsWrittenZero(h: nat, w: nat, i: int, j: int)
    requires h >= 1 && w >= 1
    requires 0 <= i < h && 0 <= j < w
    ensures Source(h, w, 0, NegStart(h, 0), NegStart(w, 0), i, j) == Some((h - 1, w - 1))
  {
  }

  /** So a two-pixel image padded by 0 does not come back unchanged: its
      first pixel takes the colour of its last. */
  lemma AsWrittenZeroCounterexample()
    ensures Source(1, 2, 0, NegStart(1, 0), NegStart(2, 0), 0, 0) != Some((Clamp(0, 0), Clamp(0, 1)))
  {
    AsWrittenZero(1, 2, 0, 0);
  }

  // ---------------------------------------------------------------------
  // extend_image_edges

  /** The pixel of `img` a source position names, black for none. */
  function Pick(img: array2<Pixel>, s: Option<(int, int)>): Pixel
    reads img
  {
    match s
    case None => Black
    case Some(s) => if img.Length0 >= 1 && img.Length1 >= 1 then img[Clamp(s.0, img.Length0 - 1), Clamp(s.1, img.Length1 - 1)] else Black
  }

  /** The centre, left and right assignments into the new black array. */
  method PadRows(out: array2<Pixel>, img: array2<Pixel>, p: nat, colFrom: nat)
    requires out != img && img.Length0 >= 1 && img.Length1 >= 1
    requires out.Length0 == img.Length0 + 2 * p && out.Length1 == img.Length1 + 2 * p
    requires p <= colFrom <= out.Length1
    requires forall i, j :: 0 <= i < out.Length0 && 0 <= j < out.Length1 ==> out[i, j] == Black
    modifies out
    ensures forall i, j :: 0 <= i < out.Length0 && 0 <= j < out.Length1 ==>
      out[i, j] == Pick(img, RowsSource(img.Length0, img.Length1, p, colFrom, i, j))
  {
    var h, w := img.Length0, img.Length1;
    Fill(out, img, p, p + h, p, p + w, Offset(p), Offset(p));
    Fill(out, img, p, p + h, 0, p, Offset(p), At(0));
    Fill(out, img, p, p + h, colFrom, out.Length1, Offset(p), At(w - 1));
  }

  /** The top and bottom assignments. */
  method PadTopBottom(out: array2<Pixel>, img: array2<Pixel>, p: nat, rowFrom: nat, colFrom: nat)
    requires out != img && img.Length0 >= 1 && img.Length1 >= 1
    requires out.Length0 == img.Length0 + 2 * p && out.Length1 == img.Length1 + 2 * p
    requires p <= rowFrom <= out.Length0
    requires forall i, j :: 0 <= i < out.Length0 && 0 <= j < out.Length1 ==>
      out[i, j] == Pick(img, RowsSource(img.Length0, img.Length1, p, colFrom, i, j))
    modifies out
    ensures forall i, j :: 0 <= i < out.Length0 && 0 <= j < out.Length1 ==>
      out[i, j] == Pick(img, SidesSource(img.Length0, img.Length1, p, rowFrom, colFrom, i, j))
  {
    var h, w := img.Length0, img.Length1;
    Fill(out, img, 0, p, p, p + w, At(0), Offset(p));
    Fill(out, img, rowFrom, out.Length0, p, p + w, At(h - 1), Offset(p));
  }

  /** The four corner assignments. */
  method PadCorners(out: array2<Pixel>, img: array2<Pixel>, p: nat, rowFrom: nat, colFrom: nat)
    requires out != img && img.Length0 >= 1 && img.Length1 >= 1
    requires out.Length0 == img.Length0 + 2 * p && out.Length1 == img.Length1 + 2 * p
    requires rowFrom <= out.Length0 && colFrom <= out.Length1
    requires forall i, j :: 0 <= i < out.Length0 && 0 <= j < out.Length1 ==>
      out[i, j] == Pick(img, SidesSource(img.Length0, img.Length1, p, rowFrom, colFrom, i, j))
    modifies out
    ensures forall i, j :: 0 <= i < out.Length0 && 0 <= j < out.Length1 ==>
      out[i, j] == Pick(img, Source(img.Length0, img.Length1, p, rowFrom, colFrom, i, j))
  {
    var h, w := img.Length0, img.Length1;
    Fill(out, img, 0, p, 0, p, At(0), At(0));
    Fill(out, img, 0, p, colFrom, out.Length1, At(0), At(w - 1));
    Fill(out, img, rowFrom, out.Length0, 0, p, At(h - 1), At(0));
    Fill(out, img, rowFrom, out.Length0, colFrom, out.Length1, At(h - 1), At(w - 1));
  }

  /** The nine slice assignments of `extend_image_edges` into a new black
      array of `h + 2p` rows and `w + 2p` columns, with the right margin
      starting at `colFrom` and the bottom one at `rowFrom`. */
  method PadRegions(img: array2<Pixel>, p: nat, rowFrom: nat, colFrom: nat) returns (out: array2<Pixel>)
    requires img.Length0 >= 1 && img.Length1 >= 1
    requires p <= rowFrom <= img.Length0 + 2 * p && p <= colFrom <= img.Length1 + 2 * p
    ensures fresh(out)
    ensures out.Length0 == img.Length0 + 2 * p && out.Length1 == img.Length1 + 2 * p
    ensures forall i, j :: 0 <= i < out.Length0 && 0 <= j < out.Length1 ==>
      out[i, j] == Pick(img, Source(img.Length0, img.Length1, p, rowFrom, colFrom, i, j))
  {
    out := new Pixel[img.Length0 + 2 * p, img.Length1 + 2 * p]((i, j) => Black);
    PadRows(out, img, p, colFrom);
    PadTopBottom(out, img, p, rowFrom, colFrom);
    PadCorners(out, img, p, rowFrom, colFrom);
  }

  /** `extend_image_edges` as written: the right and bottom margins are the
      slices `-padding:`. */
  method ExtendImageEdgesAsWritten(img: array2<Pixel>, padding: nat) returns (out: array2<Pixel>)
    requires img.Length0 >= 1 && img.Length1 >= 1
    ensures fresh(out)
    ensures out.Length0 == img.Length0 + 2 * padding && out.Length1 == img.Length1 + 2 * padding
    ensures forall i, j :: 0 <= i < out.Length0 && 0 <= j < out.Length1 ==>
      out[i, j] == Pick(img, Source(img.Length0, img.Length1, padding,
        NegStart(out.Length0, padding), NegStart(out.Length1, padding), i, j))
  {
    var h, w := img.Length0, img.Length1;
    out := PadRegions(img, padding, NegStart(h + 2 * padding, padding), NegStart(w + 2 * padding, padding));
  }

  /** `extend_image_edges` with the right and bottom margins starting right
      after the original (`padding + width:`): every pixel is the original
      pixel at the clamped position, so the centre is the original, the
      margins repeat its edges and the corners its corner pixels, and a
      padding of 0 gives the original back. */
  method ExtendImageEdges(img: array2<Pixel>, padding: nat) returns (out: array2<Pixel>)
    requires img.Length0 >= 1 && img.Length1 >= 1
    ensures fresh(out)
    ensures out.Length0 == img.Length0 + 2 * padding && out.Length1 == img.Length1 + 2 * padding
    ensures forall i, j :: 0 <= i < out.Length0 && 0 <= j < out.Length1 ==>
      out[i, j] == img[Clamp(i - padding, img.Length0 - 1), Clamp(j - padding, img.Length1 - 1)]
  {
    var h, w := img.Length0, img.Length1;
    out := PadRegions(img, padding, padding + h, padding + w);
    forall i, j | 0 <= i < out.Length0 && 0 <= j < out.Length1
      ensures out[i, j] == img[Clamp(i - padding, h - 1), Clamp(j - padding, w - 1)]
    {
      SourceIsClamp(h, w, padding, i, j);
    }
  }

  // ---------------------------------------------------------------------
  // UploadTileImg

  /** The padding every satellite tile gets before upload. */
  const TilePadding := 16

  /** The asset's display name `TILE_x_y_z`. */
  function DisplayName(x: int, y: int, z: int): (s: string)
    ensures |s| > 5 && s[..5] == "TILE_"
  {
    "TILE_" + IntTileKey(x, y, z)
  }

  /** Different tiles get different display names. */
  lemma DisplayNameInjective(x: int, y: int, z: int, x': int, y': int, z': int)
    requires DisplayName(x, y, z) == DisplayName(x', y', z')
    ensures x == x' && y == y' && z == z'
  {
    assert DisplayName(x, y, z)[5..] == IntTileKey(x, y, z);
    assert DisplayName(x', y', z')[5..] == IntTileKey(x', y', z');
    IntTileKeyInjective(x, y, z, x', y', z');
  }

  /** The image step of `UploadTileImg`: the downloaded tile padded by 16,
      so 32 pixels taller and wider, with its edges repeated outward. */
  method PadTile(img: array2<Pixel>) returns (out: array2<Pixel>)
    requires img.Length0 >= 1 && img.Length1 >= 1
    ensures fresh(out)
    ensures out.Length0 == img.Length0 + 32 && out.Length1 == img.Length1 + 32
    ensures forall i, j :: 0 <= i < out.Length0 && 0 <= j < out.Length1 ==>
      out[i, j] == img[Clamp(i - TilePadding, img.Length0 - 1), Clamp(j - TilePadding, img.Length1 - 1)]
  {
    out := ExtendImageEdges(img, TilePadding);
  }
}
