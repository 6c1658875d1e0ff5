/** The icon container: `_dib_image` and `build_ico` of
    `generate_windows_icon.py`, and the reader `ico_image_rgba` of `main.rs`. */
module Ico {

  import opened Wrappers

  type Byte = n: int | 0 <= n < 256

  const U32 := 0x1_0000_0000

  // ---------------------------------------------------- little-endian words

  function Le16(n: int): (r: seq<Byte>)
    requires 0 <= n < 0x1_0000
    ensures |r| == 2 && Get16(r, 0) == n
  {
    [n % 256, n / 256]
  }

  function Le32(n: int): (r: seq<Byte>)
    requires 0 <= n < U32
    ensures |r| == 4 && Get32(r, 0) == n
  {
    Le16(n % 0x1_0000) + Le16(n / 0x1_0000)
  }

  function Get16(s: seq<Byte>, at: nat): nat
    requires at + 2 <= |s|
  {
    s[at] as int + 0x100 * s[at + 1] as int
  }

  function Get32(s: seq<Byte>, at: nat): nat
    requires at + 4 <= |s|
  {
    Get16(s, at) + 0x1_0000 * Get16(s, at + 2)
  }

  // ------------------------------------------------------------ arithmetic

  /** The product, by repeated addition: keeps row arithmetic linear for the solver. */
  function Times(a: nat, b: nat): nat { if a == 0 then 0 else Times(a - 1, b) + b }

  lemma {:induction false} TimesIsProduct(a: nat, b: nat)
    ensures Times(a, b) == a * b
  {
    if a > 0 { TimesIsProduct(a - 1, b); }
  }

  lemma {:induction false} TimesMono(a: nat, b: nat, w: nat)
    requires a <= b
    ensures Times(a, w) <= Times(b, w)
  {
    if a < b { TimesMono(a, b - 1, w); }
  }

  /** Where pixel (x, y) starts in a top-down RGBA image. */
  function PixelAt(size: nat, x: nat, y: nat): nat { Times(y, size * 4) + 4 * x }

  lemma PixelInside(size: nat, x: nat, y: nat)
    requires x < size && y < size
    ensures PixelAt(size, x, y) + 4 <= Times(size, size * 4)
  {
    TimesMono(y + 1, size, size * 4);
  }

  lemma PixelIndex(size: nat, x: nat, y: nat)
    ensures (y * size + x) * 4 == PixelAt(size, x, y)
  {
    TimesIsProduct(y, size * 4);
  }

  // ------------------------------------------------------------- placement

  /** `part` stands in `file` at offset `at`. */
  ghost predicate At(file: seq<Byte>, at: nat, part: seq<Byte>) {
    at + |part| <= |file| && forall i :: 0 <= i < |part| ==> file[at + i] == part[i]
  }

  lemma AtAt(file: seq<Byte>, at: nat, part: seq<Byte>, inner: nat, piece: seq<Byte>)
    requires At(file, at, part) && At(part, inner, piece)
    ensures At(file, at + inner, piece)
  {
    forall i | 0 <= i < |piece| ensures file[at + inner + i] == piece[i] {
      assert part[inner + i] == piece[i];
    }
  }

  lemma AtInside(file: seq<Byte>, at: nat, part: seq<Byte>)
    requires At(file, at, part)
    ensures at + |part| <= |file|
  {}

  lemma AtNothing(file: seq<Byte>, at: nat)
    ensures at <= |file| ==> At(file, at, [])
  {}

  lemma AtMiddle(before: seq<Byte>, part: seq<Byte>, after: seq<Byte>)
    ensures At(before + part + after, |before|, part)
  {}

  lemma AtGrows(file: seq<Byte>, at: nat, part: seq<Byte>, more: seq<Byte>)
    requires At(file, at, part)
    ensures At(file + more, at, part)
  {}

  lemma AtJoin(file: seq<Byte>, at: nat, a: seq<Byte>, b: seq<Byte>)
    requires At(file, at, a) && At(file, at + |a|, b)
    ensures At(file, at, a + b)
  {
    forall i | 0 <= i < |a + b| ensures file[at + i] == (a + b)[i] {
      if i < |a| { assert file[at + i] == a[i]; } else { assert file[at + |a| + (i - |a|)] == b[i - |a|]; }
    }
  }

  lemma AtWhole(file: seq<Byte>, part: seq<Byte>)
    requires At(file, 0, part) && |file| == |part|
    ensures file == part
  {
    assert forall i :: 0 <= i < |part| ==> file[0 + i] == part[i];
  }

  // -------------------------------------------------------- concatenation

  function Flatten(parts: seq<seq<Byte>>): seq<Byte> {
    if parts == [] then [] else Flatten(parts[..|parts| - 1]) + parts[|parts| - 1]
  }

  /** Where part `k` starts once the parts are concatenated. */
  function StartOf(parts: seq<seq<Byte>>, k: nat): nat
    requires k <= |parts|
  {
    if k == 0 then 0 else StartOf(parts, k - 1) + |parts[k - 1]|
  }

  lemma {:induction false} FlattenPrefix(parts: seq<seq<Byte>>, k: nat)
    requires k <= |parts|
    ensures |Flatten(parts[..k])| == StartOf(parts, k)
    ensures k < |parts| ==> Flatten(parts[..k + 1]) == Flatten(parts[..k]) + parts[k]
  {
    if k < |parts| { assert parts[..k + 1][..k] == parts[..k]; }
    if k > 0 {
      FlattenPrefix(parts, k - 1);
    }
  }

  lemma {:induction false} FlattenAt(parts: seq<seq<Byte>>, k: nat, n: nat)
    requires k < n <= |parts|
    ensures At(Flatten(parts[..n]), StartOf(parts, k), parts[k])
  {
    FlattenPrefix(parts, k);
    FlattenPrefix(parts, n - 1);
    if k < n - 1 {
      FlattenAt(parts, k, n - 1);
      AtGrows(Flatten(parts[..n - 1]), StartOf(parts, k), parts[k], parts[n - 1]);
    } else {
      AtMiddle(Flatten(parts[..k]), parts[k], []);
      assert Flatten(parts[..k]) + parts[k] + [] == Flatten(parts[..k]) + parts[k];
    }
  }

  lemma PartAt(parts: seq<seq<Byte>>, k: nat)
    requires k < |parts|
    ensures At(Flatten(parts), StartOf(parts, k), parts[k])
  {
    FlattenAt(parts, k, |parts|);
    assert parts[..|parts|] == parts;
  }

  lemma {:induction false} EqualParts(parts: seq<seq<Byte>>, k: nat, w: nat)
    requires k <= |parts| && forall i :: 0 <= i < |parts| ==> |parts[i]| == w
    ensures StartOf(parts, k) == Times(k, w)
  {
    if k > 0 { EqualParts(parts, k - 1, w); }
  }

  // ---------------------------------------------------------------- pixels

  predicate IsImage(size: nat, rgba: seq<Byte>) { 1 <= size <= 256 && |rgba| == Times(size, size * 4) }

  /** One pixel with its red and blue bytes exchanged. */
  function SwapPixel(s: seq<Byte>, at: nat): (r: seq<Byte>)
    requires at + 4 <= |s|
    ensures |r| == 4
  {
    [s[at + 2], s[at + 1], s[at], s[at + 3]]
  }

  /** The `n` pixels from `at` on, each with red and blue exchanged. */
  function SwapRow(s: seq<Byte>, at: nat, n: nat): (r: seq<Byte>)
    requires at + 4 * n <= |s|
    ensures |r| == 4 * n
  {
    if n == 0 then [] else SwapRow(s, at, n - 1) + SwapPixel(s, at + 4 * (n - 1))
  }

  /** The first `k` rows of the `h` by `n` pixels at `at`, bottom row first and
      with red and blue exchanged: what the writer stores and what the reader
      makes of the stored bytes. */
  function Flip(s: seq<Byte>, at: nat, n: nat, h: nat, k: nat): (r: seq<Byte>)
    requires k <= h && at + Times(h, n * 4) <= |s|
    ensures |r| == Times(k, n * 4)
  {
    if k == 0 then [] else
      TimesMono(h - k + 1, h, n * 4);
      Flip(s, at, n, h, k - 1) + SwapRow(s, at + Times(h - k, n * 4), n)
  }

  lemma {:induction false} SwapRowAt(s: seq<Byte>, at: nat, n: nat, x: nat)
    requires at + 4 * n <= |s| && x < n
    ensures At(SwapRow(s, at, n), 4 * x, SwapPixel(s, at + 4 * x))
  {
    var last := SwapPixel(s, at + 4 * (n - 1));
    if x < n - 1 {
      SwapRowAt(s, at, n - 1, x);
      AtGrows(SwapRow(s, at, n - 1), 4 * x, SwapPixel(s, at + 4 * x), last);
    }
  }

  lemma PixelTwice(s: seq<Byte>, at: nat, t: seq<Byte>, to: nat)
    requires at + 4 <= |s| && At(t, to, SwapPixel(s, at))
    ensures At(s, at, SwapPixel(t, to))
  {
    var p := SwapPixel(s, at);
    assert t[to + 0] == p[0] && t[to + 1] == p[1] && t[to + 2] == p[2] && t[to + 3] == p[3];
  }

  lemma {:induction false} RowTwice(s: seq<Byte>, at: nat, t: seq<Byte>, to: nat, n: nat, x: nat)
    requires x <= n && at + 4 * n <= |s| && At(t, to, SwapRow(s, at, n))
    ensures At(s, at, SwapRow(t, to, x))
  {
    hide At, SwapPixel;
    AtInside(t, to, SwapRow(s, at, n));
    AtNothing(s, at);
    if x > 0 {
      RowTwice(s, at, t, to, n, x - 1);
      SwapRowAt(s, at, n, x - 1);
      AtAt(t, to, SwapRow(s, at, n), 4 * (x - 1), SwapPixel(s, at + 4 * (x - 1)));
      PixelTwice(s, at + 4 * (x - 1), t, to + 4 * (x - 1));
      AtJoin(s, at, SwapRow(t, to, x - 1), SwapPixel(t, to + 4 * (x - 1)));
    }
  }

  lemma {:induction false} FlipRowAt(s: seq<Byte>, at: nat, n: nat, h: nat, k: nat, row: nat)
    requires row < k <= h && at + Times(h, n * 4) <= |s|
    ensures at + Times(h - 1 - row, n * 4) + 4 * n <= |s|
    ensures At(Flip(s, at, n, h, k), Times(row, n * 4), SwapRow(s, at + Times(h - 1 - row, n * 4), n))
  {
    TimesMono(h - row, h, n * 4);
    if row < k - 1 {
      FlipRowAt(s, at, n, h, k - 1, row);
      TimesMono(h - k + 1, h, n * 4);
      AtGrows(Flip(s, at, n, h, k - 1), Times(row, n * 4), SwapRow(s, at + Times(h - 1 - row, n * 4), n),
              SwapRow(s, at + Times(h - k, n * 4), n));
    }
  }

  /** Flipping undoes itself: wherever a flipped copy of `s` is stored, flipping
      the stored copy gives `s` back. */
  lemma {:induction false} FlipTwice(s: seq<Byte>, at: nat, t: seq<Byte>, to: nat, n: nat, h: nat, k: nat)
    requires k <= h && at + Times(h, n * 4) <= |s| && At(t, to, Flip(s, at, n, h, h))
    ensures At(s, at, Flip(t, to, n, h, k))
  {
    hide At, SwapRow;
    AtInside(t, to, Flip(s, at, n, h, h));
    AtNothing(s, at);
    if k > 0 {
      FlipTwice(s, at, t, to, n, h, k - 1);
      FlipRowAt(s, at, n, h, h, h - k);
      AtAt(t, to, Flip(s, at, n, h, h), Times(h - k, n * 4), SwapRow(s, at + Times(k - 1, n * 4), n));
      RowTwice(s, at + Times(k - 1, n * 4), t, to + Times(h - k, n * 4), n, n);
      AtJoin(s, at, Flip(t, to, n, h, k - 1), SwapRow(t, to + Times(h - k, n * 4), n));
    }
  }

  // ------------------------------------------------------------- AND mask

  function Stride(size: nat): nat { (size + 31) / 32 * 4 }

  /** A mask row is the fewest whole 32-bit words that hold a bit for each pixel. */
  lemma StrideIsLeast(size: nat)
    ensures Stride(size) % 4 == 0 && 8 * Stride(size) >= size
    ensures forall bytes: nat :: bytes % 4 == 0 && 8 * bytes >= size ==> bytes >= Stride(size)
  {
    var words := (size + 31) / 32;
    assert 32 * words <= size + 31 < 32 * words + 32;
    forall bytes: nat | bytes % 4 == 0 && 8 * bytes >= size ensures bytes >= Stride(size) {
      assert bytes == 4 * (bytes / 4);
    }
  }

  predicate HasBit(b: nat, bit: nat) { if bit == 0 then b % 2 == 1 else HasBit(b / 2, bit - 1) }

  function WithBit(b: nat, bit: nat): nat {
    if bit == 0 then b / 2 * 2 + 1 else WithBit(b / 2, bit - 1) * 2 + b % 2
  }

  function Pow2(n: nat): nat { if n == 0 then 1 else 2 * Pow2(n - 1) }

  lemma {:induction false} WithBitSets(b: nat, bit: nat, other: nat)
    ensures HasBit(WithBit(b, bit), other) <==> other == bit || HasBit(b, other)
  {
    if bit > 0 && other > 0 {
      WithBitSets(b / 2, bit - 1, other - 1);
    }
  }

  lemma {:induction false} WithBitFits(b: nat, bit: nat, n: nat)
    requires b < Pow2(n) && bit < n
    ensures WithBit(b, bit) < Pow2(n)
  {
    hide *;
    PowStep(n);
    WithBitStep(b, bit);
    if bit > 0 {
      Halves(b, Pow2(n - 1), WithBit(b / 2, bit - 1));
      WithBitFits(b / 2, bit - 1, n - 1);
    } else {
      Halves(b, Pow2(n - 1), 0);
    }
  }

  lemma Halves(b: nat, w: nat, high: nat)
    requires b < 2 * w
    ensures b / 2 < w && b / 2 * 2 + 1 < 2 * w
    ensures high < w ==> high * 2 + b % 2 < 2 * w
  {}

  lemma PowStep(n: nat)
    requires n > 0
    ensures Pow2(n) == 2 * Pow2(n - 1)
  {}

  lemma WithBitStep(b: nat, bit: nat)
    ensures WithBit(b, bit) == if bit == 0 then b / 2 * 2 + 1 else WithBit(b / 2, bit - 1) * 2 + b % 2
  {}

  lemma {:induction false} NoBitsInZero(bit: nat)
    ensures !HasBit(0, bit)
  {
    if bit > 0 { NoBitsInZero(bit - 1); }
  }

  /** `b |= 1 << bit` on a byte. */
  function SetBit(b: Byte, bit: nat): (r: Byte)
    requires bit < 8
    ensures r == WithBit(b, bit)
  {
    assert Pow2(8) == 256 by { assert Pow2(5) == 32 && Pow2(2) == 4; }
    WithBitFits(b, bit, 8);
    WithBit(b, bit)
  }

  /** Mask bit of column `x` in one mask row: the most significant bit first. */
  predicate MaskBit(row: seq<Byte>, x: nat)
    requires x / 8 < |row|
  {
    HasBit(row[x / 8], 7 - x % 8)
  }

  function Zeros(n: nat): (r: seq<Byte>)
    ensures |r| == n && forall i :: 0 <= i < n ==> r[i] == 0
  {
    seq(n, i => 0)
  }

  /** The mask row of image row `y` after its first `x` pixels. */
  function MaskRow(size: nat, rgba: seq<Byte>, y: nat, x: nat): (r: seq<Byte>)
    requires IsImage(size, rgba) && y < size && x <= size
    ensures |r| == Stride(size)
  {
    if x == 0 then Zeros(Stride(size)) else
      var row, k := MaskRow(size, rgba, y, x - 1), x - 1;
      if Transparent(size, rgba, k, y) then row[k / 8 := SetBit(row[k / 8], 7 - k % 8)] else row
  }

  predicate Transparent(size: nat, rgba: seq<Byte>, x: nat, y: nat)
    requires IsImage(size, rgba) && x < size && y < size
  {
    PixelInside(size, x, y);
    rgba[PixelAt(size, x, y) + 3] == 0
  }

  lemma {:induction false} MaskRowBits(size: nat, rgba: seq<Byte>, y: nat, x: nat, column: nat)
    requires IsImage(size, rgba) && y < size && x <= size && column / 8 < Stride(size)
    ensures MaskBit(MaskRow(size, rgba, y, x), column) <==> column < x && Transparent(size, rgba, column, y)
  {
    if x == 0 {
      NoBitsInZero(7 - column % 8);
    } else {
      MaskRowBits(size, rgba, y, x - 1, column);
      var row := MaskRow(size, rgba, y, x - 1);
      WithBitSets(row[(x - 1) / 8], 7 - (x - 1) % 8, 7 - column % 8);
      hide Transparent, HasBit, WithBit, Times, PixelAt;
    }
  }

  function MaskRows(size: nat, rgba: seq<Byte>): (r: seq<seq<Byte>>)
    requires IsImage(size, rgba)
    ensures |r| == size
    ensures forall row :: 0 <= row < size ==> r[row] == MaskRow(size, rgba, size - 1 - row, size) && |r[row]| == Stride(size)
  {
    seq(size, row requires 0 <= row < size => MaskRow(size, rgba, size - 1 - row, size))
  }

  // ------------------------------------------------------------ one image

  lemma {:induction false} TimesBound(a: nat, w: nat)
    requires w <= 1024
    ensures Times(a, w) <= 1024 * a
  {
    if a > 0 { TimesBound(a - 1, w); }
  }

  function Header(size: nat): (r: seq<Byte>)
    requires 1 <= size <= 256
    ensures |r| == 40 && r[..4] == Le32(40)
  {
    TimesBound(size, size * 4);
    Le32(40) + Le32(size) + Le32(size * 2) + Le16(1) + Le16(32) + Le32(0) + Le32(Times(size, size * 4))
    + Le32(0) + Le32(0) + Le32(0) + Le32(0)
  }

  function Dib(size: nat, rgba: seq<Byte>): seq<Byte>
    requires IsImage(size, rgba)
  {
    Header(size) + Flip(rgba, 0, size, size, size) + Flatten(MaskRows(size, rgba))
  }

  /** Where the AND mask of an image starts. */
  function MaskAt(size: nat): nat { 40 + Times(size, size * 4) }

  lemma ThreePieces(a: seq<Byte>, b: seq<Byte>, c: seq<Byte>)
    ensures At(a + b + c, 0, a) && At(a + b + c, |a|, b) && At(a + b + c, |a| + |b|, c)
    ensures |a + b + c| == |a| + |b| + |c|
  {}

  lemma MaskLength(size: nat, rgba: seq<Byte>)
    requires IsImage(size, rgba)
    ensures |Flatten(MaskRows(size, rgba))| == Times(size, Stride(size))
  {
    var m := MaskRows(size, rgba);
    assert m[..size] == m;
    FlattenPrefix(m, size);
    EqualParts(m, size, Stride(size));
  }

  /** The image is its header, its pixels and its mask, and nothing else. */
  lemma DibPieces(size: nat, rgba: seq<Byte>)
    requires IsImage(size, rgba)
    ensures var dib := Dib(size, rgba);
      && |dib| == MaskAt(size) + Times(size, Stride(size))
      && At(dib, 0, Le32(40)) && At(dib, 40, Flip(rgba, 0, size, size, size))
      && At(dib, MaskAt(size), Flatten(MaskRows(size, rgba)))
  {
    MaskLength(size, rgba);
    ThreePieces(Header(size), Flip(rgba, 0, size, size, size), Flatten(MaskRows(size, rgba)));
    assert At(Header(size), 0, Le32(40));
    AtAt(Dib(size, rgba), 0, Header(size), 0, Le32(40));
  }

  /** Pixels are stored bottom row first, each as blue, green, red, alpha. */
  lemma StoredPixel(size: nat, rgba: seq<Byte>, x: nat, y: nat)
    requires IsImage(size, rgba) && x < size && y < size
    ensures var dib, p, q := Dib(size, rgba), PixelAt(size, x, y), 40 + PixelAt(size, x, size - 1 - y);
      && p + 4 <= |rgba| && q + 4 <= |dib|
      && dib[q] == rgba[p + 2] && dib[q + 1] == rgba[p + 1] && dib[q + 2] == rgba[p] && dib[q + 3] == rgba[p + 3]
  {
    hide At, Flip, SwapRow, Dib, Times;
    var dib, row, pixels := Dib(size, rgba), size - 1 - y, Flip(rgba, 0, size, size, size);
    PixelInside(size, x, y);
    DibPieces(size, rgba);
    FlipRowAt(rgba, 0, size, size, size, row);
    SwapRowAt(rgba, PixelAt(size, 0, y), size, x);
    AtAt(dib, 40, pixels, Times(row, size * 4), SwapRow(rgba, PixelAt(size, 0, y), size));
    AtAt(dib, 40 + Times(row, size * 4), SwapRow(rgba, PixelAt(size, 0, y), size), 4 * x, SwapPixel(rgba, PixelAt(size, x, y)));
    PixelBytes(dib, 40 + PixelAt(size, x, row), SwapPixel(rgba, PixelAt(size, x, y)));
  }

  lemma PixelBytes(file: seq<Byte>, at: nat, p: seq<Byte>)
    requires |p| == 4 && At(file, at, p)
    ensures at + 4 <= |file| && file[at] == p[0] && file[at + 1] == p[1] && file[at + 2] == p[2] && file[at + 3] == p[3]
  {
    assert file[at + 0] == p[0];
  }

  lemma EqualPartsAt(parts: seq<seq<Byte>>, w: nat, k: nat)
    requires k < |parts| && forall j :: 0 <= j < |parts| ==> |parts[j]| == w
    ensures At(Flatten(parts), Times(k, w), parts[k])
  {
    EqualParts(parts, k, w);
    PartAt(parts, k);
  }

  lemma MaskBitIs(size: nat, rgba: seq<Byte>, row: nat, column: nat)
    requires IsImage(size, rgba) && row < size && column / 8 < Stride(size)
    ensures MaskAt(size) + Times(row, Stride(size)) + column / 8 < |Dib(size, rgba)|
    ensures HasBit(Dib(size, rgba)[MaskAt(size) + Times(row, Stride(size)) + column / 8], 7 - column % 8)
       <==> column < size && Transparent(size, rgba, column, size - 1 - row)
  {
    hide At, Dib, Flip, Times, Flatten, MaskRow, Transparent, HasBit, Stride;
    var rows := MaskRows(size, rgba);
    var maskRow := MaskRow(size, rgba, size - 1 - row, size);
    DibPieces(size, rgba);
    EqualPartsAt(rows, Stride(size), row);
    AtAt(Dib(size, rgba), MaskAt(size), Flatten(rows), Times(row, Stride(size)), maskRow);
    MaskRowBits(size, rgba, size - 1 - row, size, column);
    ByteAt(Dib(size, rgba), MaskAt(size) + Times(row, Stride(size)), maskRow, column / 8);
  }

  lemma AlphaAt(size: nat, rgba: seq<Byte>, x: nat, y: nat)
    requires IsImage(size, rgba) && x < size && y < size
    ensures PixelAt(size, x, y) + 4 <= |rgba| && (Transparent(size, rgba, x, y) <==> rgba[PixelAt(size, x, y) + 3] == 0)
  {
    hide Times;
    PixelInside(size, x, y);
  }

  /** Every AND-mask bit is set exactly when its pixel's alpha is zero, and every padding
      bit of the row is clear. */
  lemma MaskMarksTransparentPixels(size: nat, rgba: seq<Byte>, row: nat, column: nat)
    requires IsImage(size, rgba) && row < size && column / 8 < Stride(size)
    ensures MaskAt(size) + Times(row, Stride(size)) + column / 8 < |Dib(size, rgba)|
    ensures column < size ==> PixelAt(size, column, size - 1 - row) + 4 <= |rgba|
    ensures HasBit(Dib(size, rgba)[MaskAt(size) + Times(row, Stride(size)) + column / 8], 7 - column % 8)
       <==> column < size && rgba[PixelAt(size, column, size - 1 - row) + 3] == 0
  {
    hide *;
    MaskBitIs(size, rgba, row, column);
    if column < size { AlphaAt(size, rgba, column, size - 1 - row); }
  }

  lemma ByteAt(file: seq<Byte>, at: nat, part: seq<Byte>, i: nat)
    requires At(file, at, part) && i < |part|
    ensures at + i < |file| && file[at + i] == part[i]
  {}

  method DibImage(size: nat, rgba: seq<Byte>) returns (image: seq<Byte>)
    requires IsImage(size, rgba)
    ensures image == Dib(size, rgba)
  {
    var stride := Stride(size);
    var mask := new Byte[stride * size](_ => 0);
    TimesIsProduct(size, stride);
    var xor := WriteRows(size, rgba, mask);
    image := Header(size) + xor + mask[..];
  }

  /** The first `k` rows of the square image at `at` have been flipped into `rgba`. */
  predicate RowsFlipped(rgba: seq<Byte>, s: seq<Byte>, at: nat, n: nat, k: nat) {
    k <= n && at + Times(n, n * 4) <= |s| && rgba == Flip(s, at, n, n, k)
  }

  lemma NoRowsFlipped(s: seq<Byte>, at: nat, n: nat)
    requires at + Times(n, n * 4) <= |s|
    ensures RowsFlipped([], s, at, n, 0)
  {
    hide Times, SwapRow;
  }

  lemma RowFits(s: seq<Byte>, at: nat, n: nat, row: nat)
    requires row < n && at + Times(n, n * 4) <= |s|
    ensures at + Times(row, n * 4) + 4 * n <= |s|
  {
    TimesMono(row + 1, n, n * 4);
    TimesUp(row, n * 4);
    hide Times;
  }

  lemma TimesUp(a: nat, b: nat)
    ensures Times(a + 1, b) == Times(a, b) + b
  {}

  lemma OneMoreRow(rgba: seq<Byte>, row: seq<Byte>, s: seq<Byte>, at: nat, n: nat, k: nat)
    requires RowsFlipped(rgba, s, at, n, k) && k < n && at + Times(n - 1 - k, n * 4) + 4 * n <= |s|
    requires row == SwapRow(s, at + Times(n - 1 - k, n * 4), n)
    ensures RowsFlipped(rgba + row, s, at, n, k + 1)
  {
    hide Times, SwapRow;
    FlipOnce(s, at, n, n, k + 1);
  }

  lemma FlipOnce(s: seq<Byte>, at: nat, n: nat, h: nat, k: nat)
    requires 0 < k <= h && at + Times(h, n * 4) <= |s|
    ensures at + Times(h - k, n * 4) + 4 * n <= |s|
    ensures Flip(s, at, n, h, k) == Flip(s, at, n, h, k - 1) + SwapRow(s, at + Times(h - k, n * 4), n)
  {
    hide Times, SwapRow;
    TimesMono(h - k + 1, h, n * 4);
    TimesUp(h - k, n * 4);
  }

  lemma RowsAreFlip(rgba: seq<Byte>, s: seq<Byte>, at: nat, n: nat, k: nat)
    requires RowsFlipped(rgba, s, at, n, k)
    ensures rgba == Flip(s, at, n, n, k)
  {
    hide Times, SwapRow, Flip;
  }

  /** The outer loop, from the bottom image row to the top one. */
  method WriteRows(size: nat, rgba: seq<Byte>, mask: array<Byte>) returns (xor: seq<Byte>)
    requires IsImage(size, rgba) && mask.Length == Times(size, Stride(size))
    requires forall i :: 0 <= i < mask.Length ==> mask[i] == 0
    modifies mask
    ensures xor == Flip(rgba, 0, size, size, size)
    ensures mask[..] == Flatten(MaskRows(size, rgba))
  {
    hide *;
    RowsBegin(mask[..], size, rgba);
    xor := [];
    var outputRow := 0;
    for sourceY := size downto 0
      invariant outputRow == size - sourceY
      invariant RowsWritten(xor, mask[..], size, rgba, outputRow)
    {
      RoomForRow(xor, mask[..], size, rgba, outputRow);
      ghost var before := mask[..];
      var row := WriteRow(size, rgba, sourceY, mask, outputRow * Stride(size));
      RowWritten(xor, row, before, size, rgba, outputRow);
      xor := xor + row;
      outputRow := outputRow + 1;
    }
    RowsEnd(xor, mask[..], size, rgba);
  }

  /** The first `k` output rows are written: their pixels, and their rows of the mask. */
  ghost predicate RowsWritten(xor: seq<Byte>, mask: seq<Byte>, size: nat, rgba: seq<Byte>, k: nat) {
    && IsImage(size, rgba) && RowsFlipped(xor, rgba, 0, size, k)
    && |mask| == Times(size, Stride(size)) && Masked(mask, Times(k, Stride(size)), MaskRows(size, rgba)[..k])
  }

  lemma RowsBegin(mask: seq<Byte>, size: nat, rgba: seq<Byte>)
    requires IsImage(size, rgba) && |mask| == Times(size, Stride(size))
    requires forall i :: 0 <= i < |mask| ==> mask[i] == 0
    ensures RowsWritten([], mask, size, rgba, 0)
  {
    hide Masked, RowsFlipped, Stride, MaskRow;
    MaskedStart(mask);
    NoRowsFlipped(rgba, 0, size);
  }

  /** The next row has its place in the mask, still clear. */
  lemma RoomForRow(xor: seq<Byte>, mask: seq<Byte>, size: nat, rgba: seq<Byte>, k: nat)
    requires RowsWritten(xor, mask, size, rgba, k) && k < size
    ensures IsImage(size, rgba) && k * Stride(size) + Stride(size) <= |mask|
    ensures mask[k * Stride(size)..k * Stride(size) + Stride(size)] == Zeros(Stride(size))
  {
    hide Masked, RowsFlipped, MaskRow, PutRow, IsImage, Stride, Times;
    TimesIsProduct(k, Stride(size));
    TimesMono(k + 1, size, Stride(size));
    TimesUp(k, Stride(size));
    MaskedStep(mask, k * Stride(size), Stride(size), MaskRows(size, rgba), k);
  }

  lemma RowWritten(xor: seq<Byte>, row: seq<Byte>, mask: seq<Byte>, size: nat, rgba: seq<Byte>, k: nat)
    requires RowsWritten(xor, mask, size, rgba, k) && k < size && k * Stride(size) + Stride(size) <= |mask|
    requires PixelAt(size, 0, size - 1 - k) + 4 * size <= |rgba| && row == SwapRow(rgba, PixelAt(size, 0, size - 1 - k), size)
    ensures RowsWritten(xor + row, PutRow(mask, k * Stride(size), MaskRow(size, rgba, size - 1 - k, size)), size, rgba, k + 1)
  {
    hide Masked, RowsFlipped, MaskRow, PutRow, SwapRow, Stride, Times;
    OneMoreRow(xor, row, rgba, 0, size, k);
    TimesIsProduct(k, Stride(size));
    TimesUp(k, Stride(size));
    MaskedStep(mask, k * Stride(size), Stride(size), MaskRows(size, rgba), k);
  }

  lemma RowsEnd(xor: seq<Byte>, mask: seq<Byte>, size: nat, rgba: seq<Byte>)
    requires RowsWritten(xor, mask, size, rgba, size)
    ensures IsImage(size, rgba) && xor == Flip(rgba, 0, size, size, size) && mask == Flatten(MaskRows(size, rgba))
  {
    hide Masked, MaskRow, Stride, Times, Flip, Flatten;
    assert MaskRows(size, rgba)[..size] == MaskRows(size, rgba);
    MaskedEnd(mask, MaskRows(size, rgba));
  }

  /** The mask holds the finished rows up to `base` and is still clear after it. */
  ghost predicate Masked(mask: seq<Byte>, base: nat, rows: seq<seq<Byte>>) {
    && base <= |mask| && mask[..base] == Flatten(rows)
    && forall i :: base <= i < |mask| ==> mask[i] == 0
  }

  lemma MaskedStart(mask: seq<Byte>)
    requires forall i :: 0 <= i < |mask| ==> mask[i] == 0
    ensures Masked(mask, 0, [])
  {}

  lemma MaskedEnd(mask: seq<Byte>, rows: seq<seq<Byte>>)
    requires Masked(mask, |mask|, rows)
    ensures mask == Flatten(rows)
  {
    assert mask[..|mask|] == mask;
  }

  /** The mask with the bytes from `base` on replaced by `row`. */
  function PutRow(mask: seq<Byte>, base: nat, row: seq<Byte>): (r: seq<Byte>)
    requires base + |row| <= |mask|
    ensures |r| == |mask|
  {
    mask[..base] + row + mask[base + |row|..]
  }

  lemma MaskedStep(mask: seq<Byte>, base: nat, stride: nat, rows: seq<seq<Byte>>, row: nat)
    requires row < |rows| && base + stride <= |mask| && |rows[row]| == stride
    requires Masked(mask, base, rows[..row])
    ensures Masked(PutRow(mask, base, rows[row]), base + stride, rows[..row + 1])
    ensures mask[base..base + stride] == Zeros(stride)
  {
    FlattenPrefix(rows, row);
    var after := PutRow(mask, base, rows[row]);
    assert after[..base + stride] == mask[..base] + rows[row];
    forall i | base + stride <= i < |after| ensures after[i] == 0 { assert after[i] == mask[i]; }
  }

  lemma PutRowUpdate(mask: seq<Byte>, base: nat, row: seq<Byte>, i: nat, v: Byte)
    requires base + |row| <= |mask| && i < |row|
    ensures PutRow(mask, base, row)[base + i] == row[i]
    ensures PutRow(mask, base, row)[base + i := v] == PutRow(mask, base, row[i := v])
  {}

  lemma PutRowSelf(mask: seq<Byte>, base: nat, row: seq<Byte>)
    requires base + |row| <= |mask| && mask[base..base + |row|] == row
    ensures PutRow(mask, base, row) == mask
  {}

  /** The inner loop: emit one row's pixels and or its mask bits in place. */
  method WriteRow(size: nat, rgba: seq<Byte>, sourceY: nat, mask: array<Byte>, base: nat) returns (xor: seq<Byte>)
    requires IsImage(size, rgba) && sourceY < size && base + Stride(size) <= mask.Length
    requires mask[base..base + Stride(size)] == Zeros(Stride(size))
    modifies mask
    ensures PixelAt(size, 0, sourceY) + 4 * size <= |rgba|
    ensures xor == SwapRow(rgba, PixelAt(size, 0, sourceY), size)
    ensures mask[..] == PutRow(old(mask[..]), base, MaskRow(size, rgba, sourceY, size))
  {
    hide *;
    ghost var start := mask[..];
    RowBegins(start, base, size, rgba, sourceY);
    xor := [];
    for x := 0 to size
      invariant xor == SwapRow(rgba, PixelAt(size, 0, sourceY), x)
      invariant mask[..] == PutRow(start, base, MaskRow(size, rgba, sourceY, x))
    {
      RowTurn(start, base, size, rgba, sourceY, x);
      var pixel := WritePixel(size, rgba, x, sourceY, mask, base);
      xor := xor + pixel;
    }
  }

  /** One turn of it: the pixel's bytes, and its mask bit when it is transparent. */
  method WritePixel(size: nat, rgba: seq<Byte>, x: nat, y: nat, mask: array<Byte>, base: nat) returns (pixel: seq<Byte>)
    requires IsImage(size, rgba) && x < size && y < size && base + x / 8 < mask.Length
    modifies mask
    ensures PixelAt(size, 0, y) + 4 * x + 4 <= |rgba|
    ensures pixel == SwapPixel(rgba, PixelAt(size, 0, y) + 4 * x)
    ensures mask[..] == if Transparent(size, rgba, x, y) then
      old(mask[..])[base + x / 8 := SetBit(old(mask[..])[base + x / 8], 7 - x % 8)] else old(mask[..])
  {
    hide SetBit, Transparent;
    PixelStep(size, x, y);
    hide PixelAt, IsImage;
    var red, green, blue, alpha := ReadPixel(size, rgba, x, y);
    pixel := [blue, green, red, alpha];
    if alpha == 0 {
      var at, bit := base + x / 8, 7 - x % 8;
      mask[at] := SetBit(mask[at], bit);
    }
  }

  lemma PixelStep(size: nat, x: nat, y: nat)
    ensures PixelAt(size, x, y) == PixelAt(size, 0, y) + 4 * x
  {
    hide Times;
  }

  lemma StrideCovers(size: nat, x: nat)
    requires x < size
    ensures x / 8 < Stride(size)
  {}

  lemma SwapRowStart(s: seq<Byte>, at: nat)
    requires at <= |s|
    ensures SwapRow(s, at, 0) == []
  {}

  lemma SwapRowStep(s: seq<Byte>, at: nat, n: nat)
    requires at + 4 * n + 4 <= |s|
    ensures SwapRow(s, at, n + 1) == SwapRow(s, at, n) + SwapPixel(s, at + 4 * n)
  {}

  lemma MaskRowStart(size: nat, rgba: seq<Byte>, y: nat)
    requires IsImage(size, rgba) && y < size
    ensures MaskRow(size, rgba, y, 0) == Zeros(Stride(size))
  {}

  lemma RowStep(start: seq<Byte>, base: nat, size: nat, rgba: seq<Byte>, y: nat, x: nat)
    requires IsImage(size, rgba) && y < size && x < size && base + Stride(size) <= |start|
    ensures var mask, at := PutRow(start, base, MaskRow(size, rgba, y, x)), base + x / 8;
            PutRow(start, base, MaskRow(size, rgba, y, x + 1))
            == if Transparent(size, rgba, x, y) then mask[at := SetBit(mask[at], 7 - x % 8)] else mask
  {
    var row := MaskRow(size, rgba, y, x);
    PutRowUpdate(start, base, row, x / 8, SetBit(row[x / 8], 7 - x % 8));
  }

  lemma RowBegins(start: seq<Byte>, base: nat, size: nat, rgba: seq<Byte>, y: nat)
    requires IsImage(size, rgba) && y < size && base + Stride(size) <= |start|
    requires start[base..base + Stride(size)] == Zeros(Stride(size))
    ensures PixelAt(size, 0, y) + 4 * size <= |rgba|
    ensures SwapRow(rgba, PixelAt(size, 0, y), 0) == []
    ensures PutRow(start, base, MaskRow(size, rgba, y, 0)) == start
  {
    PixelInside(size, size - 1, y);
    MaskRowStart(size, rgba, y);
    hide PutRow, Times, MaskRow, Stride, Zeros;
    SwapRowStart(rgba, PixelAt(size, 0, y));
    PutRowSelf(start, base, start[base..base + Stride(size)]);
  }

  lemma RowTurn(start: seq<Byte>, base: nat, size: nat, rgba: seq<Byte>, y: nat, x: nat)
    requires IsImage(size, rgba) && y < size && x < size && base + Stride(size) <= |start|
    ensures base + x / 8 < |start| && PixelAt(size, 0, y) + 4 * x + 4 <= |rgba|
    ensures SwapRow(rgba, PixelAt(size, 0, y), x + 1)
      == SwapRow(rgba, PixelAt(size, 0, y), x) + SwapPixel(rgba, PixelAt(size, 0, y) + 4 * x)
    ensures var mask, at := PutRow(start, base, MaskRow(size, rgba, y, x)), base + x / 8;
            PutRow(start, base, MaskRow(size, rgba, y, x + 1))
            == if Transparent(size, rgba, x, y) then mask[at := SetBit(mask[at], 7 - x % 8)] else mask
  {
    StrideCovers(size, x);
    PixelInside(size, x, y);
    PixelStep(size, x, y);
    hide PutRow, SetBit, Transparent, Times, MaskRow, Stride, SwapRow, SwapPixel, PixelAt;
    SwapRowStep(rgba, PixelAt(size, 0, y), x);
    RowStep(start, base, size, rgba, y, x);
  }

  method ReadPixel(size: nat, rgba: seq<Byte>, x: nat, y: nat) returns (red: Byte, green: Byte, blue: Byte, alpha: Byte)
    requires IsImage(size, rgba) && x < size && y < size
    ensures PixelAt(size, x, y) + 4 <= |rgba|
    ensures red == rgba[PixelAt(size, x, y)] && green == rgba[PixelAt(size, x, y) + 1]
    ensures blue == rgba[PixelAt(size, x, y) + 2] && alpha == rgba[PixelAt(size, x, y) + 3]
    ensures alpha == 0 <==> Transparent(size, rgba, x, y)
  {
    PixelInside(size, x, y);
    PixelIndex(size, x, y);
    var offset := (y * size + x) * 4;
    return rgba[offset], rgba[offset + 1], rgba[offset + 2], rgba[offset + 3];
  }

  // ---------------------------------------------------------- the container

  predicate AreImages(sizes: seq<nat>, images: seq<seq<Byte>>) {
    |sizes| == |images| && forall k :: 0 <= k < |sizes| ==> IsImage(sizes[k], images[k])
  }

  function Dibs(sizes: seq<nat>, images: seq<seq<Byte>>): (r: seq<seq<Byte>>)
    requires AreImages(sizes, images)
    ensures |r| == |sizes| && forall k :: 0 <= k < |sizes| ==> r[k] == Dib(sizes[k], images[k])
  {
    seq(|sizes|, k requires 0 <= k < |sizes| => Dib(sizes[k], images[k]))
  }

  /** Parts a directory can describe: icon dimensions and 32-bit lengths. */
  predicate Describable(sizes: seq<nat>, parts: seq<seq<Byte>>) {
    |sizes| == |parts| && forall k :: 0 <= k < |sizes| ==> 1 <= sizes[k] <= 256 && |parts[k]| < U32
  }

  /** The file offset of part `k`. */
  function OffsetOf(parts: seq<seq<Byte>>, k: nat): nat
    requires k <= |parts|
  {
    6 + |parts| * 16 + StartOf(parts, k)
  }

  /** `struct.pack` refuses a count or an offset that does not fit its field. */
  ghost predicate Fits(parts: seq<seq<Byte>>) {
    |parts| < 0x1_0000 && forall k :: 0 <= k < |parts| ==> OffsetOf(parts, k) < U32
  }

  function DimensionByte(size: nat): Byte
    requires 1 <= size <= 256
  {
    if size == 256 then 0 else size
  }

  function Entry(size: nat, length: nat, offset: nat): (r: seq<Byte>)
    requires 1 <= size <= 256 && length < U32 && offset < U32
    ensures |r| == 16
  {
    [DimensionByte(size), DimensionByte(size), 0, 0] + Le16(1) + Le16(32) + Le32(length) + Le32(offset)
  }

  /** The directory entries of the first `k` parts. */
  ghost function Entries(sizes: seq<nat>, parts: seq<seq<Byte>>, k: nat): (r: seq<Byte>)
    requires Describable(sizes, parts) && Fits(parts) && k <= |sizes|
    ensures |r| == 16 * k
  {
    if k == 0 then [] else
      Entries(sizes, parts, k - 1) + Entry(sizes[k - 1], |parts[k - 1]|, OffsetOf(parts, k - 1))
  }

  ghost function IcoFile(sizes: seq<nat>, parts: seq<seq<Byte>>): seq<Byte>
    requires Describable(sizes, parts) && Fits(parts)
  {
    Le16(0) + Le16(1) + Le16(|sizes|) + Entries(sizes, parts, |sizes|) + Flatten(parts)
  }

  method BuildIco(sizes: seq<nat>, images: seq<seq<Byte>>) returns (file: Option<seq<Byte>>)
    requires AreImages(sizes, images)
    ensures Describable(sizes, Dibs(sizes, images))
    ensures file.Some? <==> Fits(Dibs(sizes, images))
    ensures file.Some? ==> file.value == IcoFile(sizes, Dibs(sizes, images))
  {
    var dibs := BuildDibs(sizes, images);
    DibsDescribable(sizes, images);
    var entries := WriteDirectory(sizes, dibs);
    file := if entries.None? then None
            else Some(Le16(0) + Le16(1) + Le16(|dibs|) + entries.value + Flatten(dibs));
  }

  /** The directory loop with its running offset. */
  method WriteDirectory(sizes: seq<nat>, parts: seq<seq<Byte>>) returns (directory: Option<seq<Byte>>)
    requires Describable(sizes, parts)
    ensures directory.Some? <==> Fits(parts)
    ensures directory.Some? ==> directory.value == Entries(sizes, parts, |sizes|)
  {
    if |parts| >= 0x1_0000 { return None; }
    hide Entry;
    var offset := 6 + |parts| * 16;
    var entries: seq<Byte> := [];
    for k := 0 to |parts|
      invariant offset == OffsetOf(parts, k)
      invariant forall j :: 0 <= j < k ==> OffsetOf(parts, j) < U32
      invariant Fits(parts) ==> entries == Entries(sizes, parts, k)
    {
      if offset >= U32 { return None; }
      entries := entries + Entry(sizes[k], |parts[k]|, offset);
      offset := offset + |parts[k]|;
    }
    directory := Some(entries);
  }

  lemma DibsDescribable(sizes: seq<nat>, images: seq<seq<Byte>>)
    requires AreImages(sizes, images)
    ensures Describable(sizes, Dibs(sizes, images))
    ensures forall k :: 0 <= k < |sizes| ==> |Dibs(sizes, images)[k]| <= 0x8_0028
  {
    forall k | 0 <= k < |sizes| ensures |Dibs(sizes, images)[k]| <= 0x8_0028 { DibFits(sizes[k], images[k]); }
  }

  lemma DibFits(size: nat, rgba: seq<Byte>)
    requires IsImage(size, rgba)
    ensures 40 <= |Dib(size, rgba)| <= 0x8_0028
  {
    DibPieces(size, rgba);
    TimesBound(size, size * 4);
    TimesBound(size, Stride(size));
  }

  method BuildDibs(sizes: seq<nat>, images: seq<seq<Byte>>) returns (dibs: seq<seq<Byte>>)
    requires AreImages(sizes, images)
    ensures dibs == Dibs(sizes, images)
  {
    hide Dib, IsImage;
    dibs := [];
    for k := 0 to |sizes|
      invariant |dibs| == k && forall j :: 0 <= j < k ==> dibs[j] == Dib(sizes[j], images[j])
    {
      var image := DibImage(sizes[k], images[k]);
      dibs := dibs + [image];
    }
  }

  // ------------------------------------------------------------ directory

  lemma {:induction false} EntryAt(sizes: seq<nat>, parts: seq<seq<Byte>>, k: nat, n: nat)
    requires Describable(sizes, parts) && Fits(parts) && k < n <= |sizes|
    ensures At(Entries(sizes, parts, n), 16 * k, Entry(sizes[k], |parts[k]|, OffsetOf(parts, k)))
  {
    var e := Entry(sizes[n - 1], |parts[n - 1]|, OffsetOf(parts, n - 1));
    if k < n - 1 {
      EntryAt(sizes, parts, k, n - 1);
      AtGrows(Entries(sizes, parts, n - 1), 16 * k, Entry(sizes[k], |parts[k]|, OffsetOf(parts, k)), e);
    } else {
      AtMiddle(Entries(sizes, parts, k), e, []);
      assert Entries(sizes, parts, k) + e + [] == Entries(sizes, parts, k) + e;
    }
  }

  /** What a reader finds at directory entry `k`. */
  ghost predicate Described(file: seq<Byte>, k: nat, size: nat, length: nat, offset: nat) {
    var at := 6 + 16 * k;
    && at + 16 <= |file| && 1 <= size <= 256
    && file[at] == file[at + 1] == (if size == 256 then 0 else size) && file[at + 2] == file[at + 3] == 0
    && Get16(file, at + 4) == 1 && Get16(file, at + 6) == 32 && Get32(file, at + 8) == length && Get32(file, at + 12) == offset
  }

  lemma WordAt(file: seq<Byte>, at: nat, n: nat)
    requires n < U32 && At(file, at, Le32(n))
    ensures Get32(file, at) == n
  {
    var w := Le32(n);
    assert file[at + 0] == w[0];
    assert file[at + 1] == w[1];
    assert file[at + 2] == w[2];
    assert file[at + 3] == w[3];
  }

  lemma HalfAt(file: seq<Byte>, at: nat, n: nat)
    requires n < 0x1_0000 && At(file, at, Le16(n))
    ensures Get16(file, at) == n
  {
    assert file[at + 0] == Le16(n)[0];
    assert file[at + 1] == Le16(n)[1];
  }

  lemma EntryStart(file: seq<Byte>, at: nat, size: nat, length: nat, offset: nat)
    requires 1 <= size <= 256 && length < U32 && offset < U32 && At(file, at, Entry(size, length, offset))
    ensures at + 16 <= |file| && file[at] == file[at + 1] == (if size == 256 then 0 else size)
    ensures file[at + 2] == file[at + 3] == 0
  {
    hide Le16, Le32;
    var e := Entry(size, length, offset);
    assert file[at + 0] == e[0] && file[at + 1] == e[1] && file[at + 2] == e[2] && file[at + 3] == e[3];
  }

  lemma EntryReads(file: seq<Byte>, k: nat, size: nat, length: nat, offset: nat)
    requires 1 <= size <= 256 && length < U32 && offset < U32
    requires At(file, 6 + 16 * k, Entry(size, length, offset))
    ensures Described(file, k, size, length, offset)
  {
    hide At, Le16, Le32, Get16, Get32;
    var d, e, at := DimensionByte(size), Entry(size, length, offset), 6 + 16 * k;
    EntryStart(file, at, size, length, offset);
    EntryPieces([d, d, 0, 0], Le16(1), Le16(32), Le32(length), Le32(offset));
    AtAt(file, at, e, 4, Le16(1));
    HalfAt(file, at + 4, 1);
    AtAt(file, at, e, 6, Le16(32));
    HalfAt(file, at + 6, 32);
    AtAt(file, at, e, 8, Le32(length));
    WordAt(file, at + 8, length);
    AtAt(file, at, e, 12, Le32(offset));
    WordAt(file, at + 12, offset);
  }

  lemma EntryPieces(a: seq<Byte>, b: seq<Byte>, c: seq<Byte>, d: seq<Byte>, e: seq<Byte>)
    requires |a| == 4 && |b| == |c| == 2 && |d| == |e| == 4
    ensures At(a + b + c + d + e, 4, b) && At(a + b + c + d + e, 6, c)
    ensures At(a + b + c + d + e, 8, d) && At(a + b + c + d + e, 12, e)
  {}

  lemma FilePieces(a: seq<Byte>, b: seq<Byte>, c: seq<Byte>, d: seq<Byte>, e: seq<Byte>)
    requires |a| == |b| == |c| == 2
    ensures var f := a + b + c + d + e;
      At(f, 0, a) && At(f, 2, b) && At(f, 4, c) && At(f, 6, d) && At(f, 6 + |d|, e) && |f| == 6 + |d| + |e|
  {}

  lemma FileLayout(sizes: seq<nat>, parts: seq<seq<Byte>>)
    requires Describable(sizes, parts) && Fits(parts)
    ensures var file := IcoFile(sizes, parts);
      && |file| == OffsetOf(parts, |parts|)
      && At(file, 6, Entries(sizes, parts, |sizes|)) && At(file, 6 + 16 * |sizes|, Flatten(parts))
      && Get16(file, 0) == 0 && Get16(file, 2) == 1 && Get16(file, 4) == |sizes|
  {
    var file := IcoFile(sizes, parts);
    assert parts[..|parts|] == parts;
    FlattenPrefix(parts, |parts|);
    FilePieces(Le16(0), Le16(1), Le16(|sizes|), Entries(sizes, parts, |sizes|), Flatten(parts));
    HalfAt(file, 0, 0);
    HalfAt(file, 2, 1);
    HalfAt(file, 4, |sizes|);
  }

  /** The directory tells the truth and its parts tile the file: the first part
      starts where the directory ends, each next one where the last ended, and
      the file ends with the last. */
  lemma DirectoryTilesFile(sizes: seq<nat>, parts: seq<seq<Byte>>, k: nat)
    requires Describable(sizes, parts) && Fits(parts) && k < |sizes|
    ensures Described(IcoFile(sizes, parts), k, sizes[k], |parts[k]|, OffsetOf(parts, k))
    ensures At(IcoFile(sizes, parts), OffsetOf(parts, k), parts[k])
    ensures OffsetOf(parts, 0) == 6 + 16 * |sizes|
    ensures OffsetOf(parts, k) + |parts[k]| == OffsetOf(parts, k + 1)
    ensures |IcoFile(sizes, parts)| == OffsetOf(parts, |parts|)
  {
    var file, n := IcoFile(sizes, parts), |sizes|;
    var e := Entry(sizes[k], |parts[k]|, OffsetOf(parts, k));
    FileLayout(sizes, parts);
    EntryAt(sizes, parts, k, n);
    AtAt(file, 6, Entries(sizes, parts, n), 16 * k, e);
    EntryReads(file, k, sizes[k], |parts[k]|, OffsetOf(parts, k));
    PartAt(parts, k);
    AtAt(file, 6 + 16 * n, Flatten(parts), StartOf(parts, k), parts[k]);
  }

  predicate Distinct(sizes: seq<nat>) { forall i, j :: 0 <= i < j < |sizes| ==> sizes[i] != sizes[j] }

  lemma {:induction false} DistinctAtMost(sizes: seq<nat>, bound: nat)
    requires Distinct(sizes) && forall k :: 0 <= k < |sizes| ==> 1 <= sizes[k] <= bound
    ensures |sizes| <= bound
  {
    if exists k :: 0 <= k < |sizes| && sizes[k] == bound {
      var k :| 0 <= k < |sizes| && sizes[k] == bound;
      var rest := sizes[..k] + sizes[k + 1..];
      forall i, j | 0 <= i < j < |rest| ensures rest[i] != rest[j] {
        assert rest[i] == sizes[if i < k then i else i + 1] && rest[j] == sizes[if j < k then j else j + 1];
      }
      forall j | 0 <= j < |rest| ensures 1 <= rest[j] <= bound - 1 {
        assert rest[j] == sizes[if j < k then j else j + 1];
      }
      DistinctAtMost(rest, bound - 1);
    } else if sizes != [] {
      assert 1 <= sizes[0] <= bound;
      DistinctAtMost(sizes, bound - 1);
    }
  }

  lemma {:induction false} StartBound(parts: seq<seq<Byte>>, k: nat, each: nat)
    requires k <= |parts| && forall j :: 0 <= j < |parts| ==> |parts[j]| <= each
    ensures StartOf(parts, k) <= Times(k, each)
  {
    if k > 0 { StartBound(parts, k - 1, each); }
  }

  /** Distinct icon sizes always fit the format: building never fails. */
  lemma DistinctSizesFit(sizes: seq<nat>, images: seq<seq<Byte>>)
    requires AreImages(sizes, images) && Distinct(sizes)
    ensures Fits(Dibs(sizes, images))
  {
    var parts := Dibs(sizes, images);
    DistinctAtMost(sizes, 256);
    DibsDescribable(sizes, images);
    forall k | 0 <= k < |parts| ensures OffsetOf(parts, k) < U32 {
      StartBound(parts, k, 0x8_0028);
      TimesMono(k, 256, 0x8_0028);
      TimesIsProduct(256, 0x8_0028);
    }
  }

  // --------------------------------------------------------------- reading

  function EntrySize(b: Byte): nat { if b == 0 then 256 else b }

  /** The first entry at or after `k` for a square image of the wanted size;
      running off the file is a failed read. */
  function FindEntry(ico: seq<Byte>, count: nat, k: nat, wanted: nat): (r: Option<nat>)
    ensures r.Some? ==> k <= r.value < count
    decreases count - k
  {
    if k >= count || 6 + 16 * k + 2 > |ico| then None
    else if EntrySize(ico[6 + 16 * k]) == wanted && EntrySize(ico[6 + 16 * k + 1]) == wanted then Some(k)
    else FindEntry(ico, count, k + 1, wanted)
  }

  /** Everything the reader asserts or indexes before it copies pixels. */
  function LocatePixels(ico: seq<Byte>, wanted: nat): Option<nat> {
    if |ico| < 6 || Get16(ico, 0) != 0 || Get16(ico, 2) != 1 then None else
      var found := FindEntry(ico, Get16(ico, 4), 0, wanted);
      if found.None? || 6 + 16 * found.value + 16 > |ico| || Get16(ico, 6 + 16 * found.value + 6) != 32 then None else
        var dib := Get32(ico, 6 + 16 * found.value + 12);
        if dib + 4 > |ico| || Get32(ico, dib) != 40 then None else Some(dib + 40)
  }

  /** The reader; a failed assertion or an index past the end is `None`. */
  method IcoImageRgba(ico: seq<Byte>, wanted: nat) returns (image: Option<seq<Byte>>)
    ensures image.Some? <==>
      LocatePixels(ico, wanted).Some? && LocatePixels(ico, wanted).value + Times(wanted, wanted * 4) <= |ico|
    ensures image.Some? ==> image.value == Flip(ico, LocatePixels(ico, wanted).value, wanted, wanted, wanted)
  {
    var located := LocatePixels(ico, wanted);
    PixelIndex(wanted, 0, wanted);
    if located.None? || located.value + wanted * wanted * 4 > |ico| { return None; }
    var rgba := CopyRows(ico, located.value, wanted);
    image := Some(rgba);
  }

  /** The outer loop of the reader. */
  method CopyRows(ico: seq<Byte>, pixels: nat, wanted: nat) returns (rgba: seq<Byte>)
    requires pixels + Times(wanted, wanted * 4) <= |ico|
    ensures rgba == Flip(ico, pixels, wanted, wanted, wanted)
  {
    hide *;
    rgba := [];
    NoRowsFlipped(ico, pixels, wanted);
    for y := 0 to wanted
      invariant RowsFlipped(rgba, ico, pixels, wanted, y)
    {
      RowFits(ico, pixels, wanted, wanted - 1 - y);
      var row := CopyRow(ico, pixels, wanted - 1 - y, wanted);
      OneMoreRow(rgba, row, ico, pixels, wanted, y);
      rgba := rgba + row;
    }
    RowsAreFlip(rgba, ico, pixels, wanted, wanted);
  }

  /** The inner loop of the reader, over one stored row. */
  method CopyRow(ico: seq<Byte>, pixels: nat, sourceY: nat, wanted: nat) returns (row: seq<Byte>)
    requires pixels + Times(sourceY, wanted * 4) + 4 * wanted <= |ico|
    ensures row == SwapRow(ico, pixels + Times(sourceY, wanted * 4), wanted)
  {
    row := [];
    for x := 0 to wanted
      invariant row == SwapRow(ico, pixels + Times(sourceY, wanted * 4), x)
    {
      hide Times;
      PixelIndex(wanted, x, sourceY);
      var source := pixels + (sourceY * wanted + x) * 4;
      row := row + [ico[source + 2], ico[source + 1], ico[source], ico[source + 3]];
    }
  }

  lemma {:induction false} FindsEntry(sizes: seq<nat>, parts: seq<seq<Byte>>, k: nat, from: nat)
    requires Describable(sizes, parts) && Fits(parts) && Distinct(sizes) && from <= k < |sizes|
    ensures FindEntry(IcoFile(sizes, parts), |sizes|, from, sizes[k]) == Some(k)
    decreases k - from
  {
    DirectoryTilesFile(sizes, parts, from);
    if from < k {
      assert sizes[from] != sizes[k];
      FindsEntry(sizes, parts, k, from + 1);
    }
  }

  lemma LocatesPixels(sizes: seq<nat>, images: seq<seq<Byte>>, k: nat)
    requires AreImages(sizes, images) && Distinct(sizes) && k < |sizes|
    ensures Describable(sizes, Dibs(sizes, images)) && Fits(Dibs(sizes, images))
    ensures LocatePixels(IcoFile(sizes, Dibs(sizes, images)), sizes[k]) == Some(OffsetOf(Dibs(sizes, images), k) + 40)
  {
    hide Dib, At, Flip, Distinct, Fits, OffsetOf, IcoFile, LocatePixels, Flatten, Times;
    DibsDescribable(sizes, images);
    DistinctSizesFit(sizes, images);
    DibPieces(sizes[k], images[k]);
    LocatesPart(sizes, Dibs(sizes, images), k);
  }

  /** The reader finds any part that starts with its header length. */
  lemma LocatesPart(sizes: seq<nat>, parts: seq<seq<Byte>>, k: nat)
    requires Describable(sizes, parts) && Fits(parts) && Distinct(sizes) && k < |sizes|
    requires At(parts[k], 0, Le32(40))
    ensures LocatePixels(IcoFile(sizes, parts), sizes[k]) == Some(OffsetOf(parts, k) + 40)
  {
    hide At, Flatten, Entries, IcoFile, Distinct, OffsetOf, FindEntry, Fits;
    FileLayout(sizes, parts);
    FindsEntry(sizes, parts, k, 0);
    DirectoryTilesFile(sizes, parts, k);
    AtAt(IcoFile(sizes, parts), OffsetOf(parts, k), parts[k], 0, Le32(40));
    WordAt(IcoFile(sizes, parts), OffsetOf(parts, k), 40);
  }

  /** The round trip: from a file built over any distinct sizes, reading any of
      them returns that image's original pixels. */
  lemma BuiltIconReadsBack(sizes: seq<nat>, images: seq<seq<Byte>>, k: nat)
    requires AreImages(sizes, images) && Distinct(sizes) && k < |sizes|
    ensures Describable(sizes, Dibs(sizes, images)) && Fits(Dibs(sizes, images))
    ensures var file, size := IcoFile(sizes, Dibs(sizes, images)), sizes[k];
      && LocatePixels(file, size).Some?
      && LocatePixels(file, size).value + Times(size, size * 4) <= |file|
      && Flip(file, LocatePixels(file, size).value, size, size, size) == images[k]
  {
    hide Dib, At, Flip, Distinct, Fits, OffsetOf, IcoFile, LocatePixels, Flatten, Times;
    var parts, size := Dibs(sizes, images), sizes[k];
    LocatesPixels(sizes, images, k);
    DirectoryTilesFile(sizes, parts, k);
    DibPieces(size, images[k]);
    StoredImageReadsBack(IcoFile(sizes, parts), OffsetOf(parts, k), parts[k], size, images[k]);
  }

  lemma StoredImageReadsBack(file: seq<Byte>, at: nat, dib: seq<Byte>, size: nat, rgba: seq<Byte>)
    requires IsImage(size, rgba) && At(file, at, dib) && At(dib, 40, Flip(rgba, 0, size, size, size))
    ensures at + 40 + Times(size, size * 4) <= |file|
    ensures Flip(file, at + 40, size, size, size) == rgba
  {
    hide At, Flip, Times;
    AtAt(file, at, dib, 40, Flip(rgba, 0, size, size, size));
    FlipTwice(rgba, 0, file, at + 40, size, size, size);
    AtWhole(rgba, Flip(file, at + 40, size, size, size));
  }

  // ------------------------------------------------------ the image headers

  /** What a reader finds in the header of an image at `at`: its own length, the width,
      twice the height, one plane of 32 bits, no compression, the length of the pixels,
      and zeros. */
  ghost predicate Headed(file: seq<Byte>, at: nat, size: nat) {
    && at + 40 <= |file|
    && Get32(file, at) == 40 && Get32(file, at + 4) == size && Get32(file, at + 8) == 2 * size
    && Get16(file, at + 12) == 1 && Get16(file, at + 14) == 32 && Get32(file, at + 16) == 0
    && Get32(file, at + 20) == 4 * size * size
    && Get32(file, at + 24) == 0 && Get32(file, at + 28) == 0 && Get32(file, at + 32) == 0 && Get32(file, at + 36) == 0
  }

  lemma FirstPieces(a: seq<Byte>, b: seq<Byte>, c: seq<Byte>, d: seq<Byte>, e: seq<Byte>, f: seq<Byte>)
    requires |a| == |b| == |c| == |f| == 4 && |d| == |e| == 2
    ensures var w := a + b + c + d + e + f;
      |w| == 20 && At(w, 0, a) && At(w, 4, b) && At(w, 8, c) && At(w, 12, d) && At(w, 14, e) && At(w, 16, f)
  {}

  lemma LastPieces(first: seq<Byte>, a: seq<Byte>, z: seq<Byte>)
    requires |first| == 20 && |a| == |z| == 4
    ensures var w := first + a + z + z + z + z;
      At(w, 0, first) && At(w, 20, a) && At(w, 24, z) && At(w, 28, z) && At(w, 32, z) && At(w, 36, z)
  {}

  lemma HeaderPieces(size: nat)
    requires 1 <= size <= 256 && Times(size, size * 4) < U32
    ensures At(Header(size), 0, Le32(40)) && At(Header(size), 4, Le32(size)) && At(Header(size), 8, Le32(size * 2))
    ensures At(Header(size), 12, Le16(1)) && At(Header(size), 14, Le16(32)) && At(Header(size), 16, Le32(0))
    ensures At(Header(size), 20, Le32(Times(size, size * 4)))
    ensures At(Header(size), 24, Le32(0)) && At(Header(size), 28, Le32(0)) && At(Header(size), 32, Le32(0))
    ensures At(Header(size), 36, Le32(0))
  {
    hide Times, At, Le32, Le16, Get32, Get16;
    var h, first := Header(size), Le32(40) + Le32(size) + Le32(size * 2) + Le16(1) + Le16(32) + Le32(0);
    FirstPieces(Le32(40), Le32(size), Le32(size * 2), Le16(1), Le16(32), Le32(0));
    LastPieces(first, Le32(Times(size, size * 4)), Le32(0));
    AtAt(h, 0, first, 0, Le32(40));
    AtAt(h, 0, first, 4, Le32(size));
    AtAt(h, 0, first, 8, Le32(size * 2));
    AtAt(h, 0, first, 12, Le16(1));
    AtAt(h, 0, first, 14, Le16(32));
    AtAt(h, 0, first, 16, Le32(0));
  }

  /** Every header of a built file reads back. */
  lemma HeadersReadBack(sizes: seq<nat>, images: seq<seq<Byte>>, k: nat)
    requires AreImages(sizes, images) && Distinct(sizes) && k < |sizes|
    ensures Describable(sizes, Dibs(sizes, images)) && Fits(Dibs(sizes, images))
    ensures Headed(IcoFile(sizes, Dibs(sizes, images)), OffsetOf(Dibs(sizes, images), k), sizes[k])
  {
    hide Dib, At, Flip, Distinct, Fits, OffsetOf, IcoFile, LocatePixels, Flatten, Times, Headed, Described;
    var parts := Dibs(sizes, images);
    LocatesPixels(sizes, images, k);
    DirectoryTilesFile(sizes, parts, k);
    DibHeader(sizes[k], images[k]);
    AtAt(IcoFile(sizes, parts), OffsetOf(parts, k), parts[k], 0, Header(sizes[k]));
    HeaderReads(IcoFile(sizes, parts), OffsetOf(parts, k), sizes[k]);
  }

  lemma DibHeader(size: nat, rgba: seq<Byte>)
    requires IsImage(size, rgba)
    ensures At(Dib(size, rgba), 0, Header(size))
  {
    hide Flip, Flatten, MaskRows, Header;
    ThreePieces(Header(size), Flip(rgba, 0, size, size, size), Flatten(MaskRows(size, rgba)));
  }

  lemma PixelsLength(size: nat)
    requires 1 <= size <= 256
    ensures Times(size, size * 4) == 4 * size * size < U32
  {
    TimesIsProduct(size, size * 4);
    TimesBound(size, size * 4);
  }

  lemma HeaderReads(file: seq<Byte>, at: nat, size: nat)
    requires 1 <= size <= 256 && At(file, at, Header(size))
    ensures Headed(file, at, size)
  {
    hide At, Le32, Le16, Get32, Get16, Times, Header;
    PixelsLength(size);
    HeaderPieces(size);
    AtInside(file, at, Header(size));
    HeaderWord(file, at, size, 0, 40);
    HeaderWord(file, at, size, 4, size);
    HeaderWord(file, at, size, 8, size * 2);
    HeaderHalf(file, at, size, 12, 1);
    HeaderHalf(file, at, size, 14, 32);
    HeaderWord(file, at, size, 16, 0);
    HeaderWord(file, at, size, 20, Times(size, size * 4));
    HeaderWord(file, at, size, 24, 0);
    HeaderWord(file, at, size, 28, 0);
    HeaderWord(file, at, size, 32, 0);
    HeaderWord(file, at, size, 36, 0);
  }

  lemma HeaderWord(file: seq<Byte>, at: nat, size: nat, inner: nat, n: nat)
    requires 1 <= size <= 256 && At(file, at, Header(size)) && n < U32 && At(Header(size), inner, Le32(n))
    ensures Get32(file, at + inner) == n
  {
    hide Header, At, Get32;
    AtAt(file, at, Header(size), inner, Le32(n));
    WordAt(file, at + inner, n);
  }

  lemma HeaderHalf(file: seq<Byte>, at: nat, size: nat, inner: nat, n: nat)
    requires 1 <= size <= 256 && At(file, at, Header(size)) && n < 0x1_0000 && At(Header(size), inner, Le16(n))
    ensures Get16(file, at + inner) == n
  {
    hide Header, At, Get16;
    AtAt(file, at, Header(size), inner, Le16(n));
    HalfAt(file, at + inner, n);
  }
}
