/** The pixel buffer of the renderer: its reallocation on resize and the per-frame background fill. */
module Bitmaps {
  import opened Scalars

  /** The background colour `DrawScene` writes, 0x00RRGGBB. */
  const BACKGROUND: bv32 := 0xAAAAAA

  /** Offsets the pixel pointer takes while walking one row of `width` pixels, starting `row` rows in. */
  function RowOffsets(row: nat, width: nat): (r: seq<nat>)
    ensures |r| == width
  {
    seq(width, col requires 0 <= col < width => row * width + col)
  }

  /** Offsets the pixel pointer takes over the first `height` rows, in the order of the nested loops. */
  function Scan(width: nat, height: nat): seq<nat>
  {
    if height == 0 then [] else Scan(width, height - 1) + RowOffsets(height - 1, width)
  }

  /** Row-major order: the walk visits each offset below `width * height` exactly once, in increasing order. */
  lemma {:induction false} ScanIsRowMajor(width: nat, height: nat)
    ensures |Scan(width, height)| == width * height
    ensures forall i :: 0 <= i < |Scan(width, height)| ==> Scan(width, height)[i] == i
  {
    if height > 0 {
      ScanIsRowMajor(width, height - 1);
      var before, row := Scan(width, height - 1), RowOffsets(height - 1, width);
      assert |before| == (height - 1) * width;
      assert (height - 1) * width + width == width * height;
      forall i | 0 <= i < |before + row|
        ensures (before + row)[i] == i
      {
        if i >= |before| {
          assert row[i - |before|] == (height - 1) * width + (i - |before|);
        }
      }
    }
  }

  /** The buffer after the pointer has written the background colour into its first `n` pixels, one at a time. */
  function Painted(pixels: seq<bv32>, n: nat): (r: seq<bv32>)
    requires n <= |pixels|
    ensures |r| == |pixels|
  {
    if n == 0 then pixels else Painted(pixels, n - 1)[n - 1 := BACKGROUND]
  }

  /** Pixels before `n` hold the background colour; the rest are as they were. */
  lemma {:induction false} PaintedAt(pixels: seq<bv32>, n: nat, i: nat)
    requires n <= |pixels| && i < |pixels|
    ensures Painted(pixels, n)[i] == if i < n then BACKGROUND else pixels[i]
  {
    if n > 0 {
      PaintedAt(pixels, n - 1, i);
    }
  }

  /** Painting is idempotent: a second pass over the same pixels changes nothing. */
  lemma PaintedIdempotent(pixels: seq<bv32>, n: nat)
    requires n <= |pixels|
    ensures Painted(Painted(pixels, n), n) == Painted(pixels, n)
  {
    var once := Painted(pixels, n);
    forall i | 0 <= i < |pixels|
      ensures Painted(once, n)[i] == once[i]
    {
      PaintedAt(once, n, i);
      PaintedAt(pixels, n, i);
    }
  }

  /** Painting the whole buffer leaves nothing but the background colour, whatever was there before. */
  lemma PaintedAllIsBackground(pixels: seq<bv32>)
    ensures Painted(pixels, |pixels|) == seq(|pixels|, _ => BACKGROUND)
  {
    forall i | 0 <= i < |pixels|
      ensures Painted(pixels, |pixels|)[i] == BACKGROUND
    {
      PaintedAt(pixels, |pixels|, i);
    }
  }

  /** A product of two sizes is a size; the solver does not find this inside `Resize` unaided. */
  lemma NonNegativeProduct(a: int, b: int)
    requires 0 <= a && 0 <= b
    ensures 0 <= a * b
  {
  }

  /** Row `row` of a `width` by `height` buffer ends where the next row begins, inside the buffer. */
  lemma RowFits(width: nat, height: nat, row: nat)
    requires row < height
    ensures row * width + width == (row + 1) * width <= width * height
  {
    calc {
      width * height - (row + 1) * width;
      (height - (row + 1)) * width;
    >=
      0;
    }
  }

  /** `Bitmap`: the pixel memory and its dimensions. */
  class Bitmap {
    var memory: array<bv32>
    var width: int32
    var height: int32

    /** The buffer always holds exactly `width * height` pixels. */
    ghost predicate Valid()
      reads this
    {
      0 <= width && 0 <= height && memory.Length == width as int * height as int
    }

    /** The zero-initialised global bitmap, before the first resize: no pixels. */
    constructor ()
      ensures Valid() && width == 0 && height == 0 && memory.Length == 0
    {
      memory := new bv32[0];
      width, height := 0, 0;
    }

    /**
     * `ResizeBitmap`: records the new dimensions and replaces the buffer by a fresh one of
     * `width * height` pixels, whose contents are not specified. The product is computed in
     * `int`, and a negative size makes `new[]` throw, so callers pass non-negative sizes whose
     * product fits.
     */
    method Resize(newWidth: int32, newHeight: int32)
      requires 0 <= newWidth && 0 <= newHeight
      requires newWidth as int * newHeight as int <= INT32_MAX
      modifies this
      ensures Valid()
      ensures width == newWidth && height == newHeight
      ensures fresh(memory) && memory.Length == newWidth as int * newHeight as int
    {
      var size := newWidth as int * newHeight as int;
      NonNegativeProduct(newWidth as int, newHeight as int);
      width := newWidth;
      height := newHeight;
      memory := new bv32[size];
    }

    /**
     * `DrawScene`: walks the buffer row by row with an incrementing pixel pointer and writes the
     * background colour into every pixel. The ghost result is the sequence of offsets written.
     */
    method DrawScene() returns (ghost written: seq<nat>)
      requires Valid()
      modifies memory
      ensures Valid()
      ensures memory[..] == Painted(old(memory[..]), memory.Length)
      ensures forall i :: 0 <= i < memory.Length ==> memory[i] == BACKGROUND
      ensures written == Scan(width as int, height as int)
    {
      var color := BACKGROUND;
      var w, h: nat := width as int, height as int;
      var pixel := 0;
      written := [];
      var row := 0;
      while row < h
        invariant 0 <= row <= h
        invariant pixel == row * w <= memory.Length
        invariant written == Scan(w, row)
        invariant memory[..] == Painted(old(memory[..]), pixel)
      {
        var col := 0;
        RowFits(w, h, row);
        while col < w
          invariant 0 <= col <= w
          invariant pixel == row * w + col <= memory.Length
          invariant written == Scan(w, row) + RowOffsets(row, w)[..col]
          invariant memory[..] == Painted(old(memory[..]), pixel)
        {
          memory[pixel] := color;
          written := written + [pixel];
          pixel := pixel + 1;
          col := col + 1;
          assert RowOffsets(row, w)[..col] == RowOffsets(row, w)[..col - 1] + [pixel - 1];
        }
        assert RowOffsets(row, w)[..col] == RowOffsets(row, w);
        row := row + 1;
      }
      PaintedAllIsBackground(old(memory[..]));
    }
  }
}
