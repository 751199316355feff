/**
  The palette: the list of distinct 32-bit colours read from an image, in
  first-seen order, and the three ways the generators pick an entry from
  it — the first nearest entry to a target colour among those closer than
  1000, a random entry, and a cyclic entry by index.
*/
module Palette {
  import opened Colors
  import opened Arithmetic

  /** A 32-bit pixel value (`Uint32`), as stored in the palette. */
  type Pixel = bv32

  /** `ceng::ColorDistance` between a target colour and a palette entry. */
  type Distance = (Rgb, Pixel) -> real

  /** A decoded image: `pixels[y][x]` is the pixel at column x of row y. */
  datatype Texture = Texture(width: nat, height: nat, pixels: seq<seq<Pixel>>)
  {
    predicate Valid()
    {
      |pixels| == height && forall y :: 0 <= y < height ==> |pixels[y]| == width
    }
  }

  // ---------------------------------------------------------------------
  // Loading: row-major scan with unique append
  // ---------------------------------------------------------------------

  /** The pixels of `rows` in scan order: row by row, left to right in each row. */
  function RowMajor(rows: seq<seq<Pixel>>): seq<Pixel>
  {
    if |rows| == 0 then [] else RowMajor(rows[..|rows| - 1]) + rows[|rows| - 1]
  }

  /** Pixel `rows[y][x]` occurs in the scan, and the scan holds nothing else. */
  lemma {:induction false} RowMajorElements(rows: seq<seq<Pixel>>)
    ensures forall y, x :: 0 <= y < |rows| && 0 <= x < |rows[y]| ==> rows[y][x] in RowMajor(rows)
    ensures forall c :: c in RowMajor(rows) ==>
              exists y, x :: 0 <= y < |rows| && 0 <= x < |rows[y]| && rows[y][x] == c
  {
    if |rows| > 0 {
      var init := rows[..|rows| - 1];
      var last := rows[|rows| - 1];
      RowMajorElements(init);
      assert RowMajor(rows) == RowMajor(init) + last;
      forall y, x | 0 <= y < |rows| && 0 <= x < |rows[y]|
        ensures rows[y][x] in RowMajor(rows)
      {
        if y < |rows| - 1 {
          assert rows[y] == init[y];
        } else {
          assert rows[y][x] == last[x];
        }
      }
      forall c | c in RowMajor(rows)
        ensures exists y, x :: 0 <= y < |rows| && 0 <= x < |rows[y]| && rows[y][x] == c
      {
        if c in RowMajor(init) {
          var y, x :| 0 <= y < |init| && 0 <= x < |init[y]| && init[y][x] == c;
          assert rows[y] == init[y];
        } else {
          var x :| 0 <= x < |last| && last[x] == c;
          assert rows[|rows| - 1][x] == c;
        }
      }
    }
  }

  /** `ceng::VectorAddUnique`: append `c` unless it is already present. */
  function AddUnique(s: seq<Pixel>, c: Pixel): seq<Pixel>
  {
    if c in s then s else s + [c]
  }

  /** No value occurs twice in `s`. */
  predicate Distinct(s: seq<Pixel>)
  {
    forall i, j :: 0 <= i < j < |s| ==> s[i] != s[j]
  }

  /**
    The palette built by unique-appending the values of `s` one by one: it
    is duplicate-free and holds exactly the values that occur in `s`.
  */
  function Dedup(s: seq<Pixel>): (r: seq<Pixel>)
    ensures Distinct(r)
    ensures forall c :: c in r <==> c in s
    decreases |s|
  {
    if |s| == 0 then []
    else
      var init := s[..|s| - 1];
      assert s == init + [s[|s| - 1]];
      AddUnique(Dedup(init), s[|s| - 1])
  }

  /** Unique-appending one more value extends the palette of the longer input. */
  lemma DedupSnoc(s: seq<Pixel>, c: Pixel)
    ensures Dedup(s + [c]) == AddUnique(Dedup(s), c)
  {
    assert (s + [c])[..|s|] == s;
  }

  /**
    One step of the row-major load: after the first `x` pixels of the
    current row, reading pixel `x` unique-appends it.
  */
  lemma LoadStep(scanned: seq<Pixel>, row: seq<Pixel>, x: nat)
    requires x < |row|
    ensures Dedup(scanned + row[..x + 1]) == AddUnique(Dedup(scanned + row[..x]), row[x])
  {
    assert scanned + row[..x + 1] == (scanned + row[..x]) + [row[x]];
    DedupSnoc(scanned + row[..x], row[x]);
  }

  /** Finishing row `y` of the scan continues the scan of the rows before it. */
  lemma LoadRowDone(rows: seq<seq<Pixel>>, y: nat)
    requires y < |rows|
    ensures RowMajor(rows[..y + 1]) == RowMajor(rows[..y]) + rows[y][..|rows[y]|]
    ensures RowMajor(rows[..y]) + rows[y][..0] == RowMajor(rows[..y])
  {
    assert rows[..y + 1][..y] == rows[..y];
    assert rows[y][..|rows[y]|] == rows[y];
  }

  /** Index of the first occurrence of `c` in `s`, or `|s|` when `c` does not occur. */
  function FirstIndex(s: seq<Pixel>, c: Pixel): (r: nat)
    ensures r <= |s|
    ensures r < |s| <==> c in s
    ensures r < |s| ==> s[r] == c
    ensures c !in s[..r]
  {
    if |s| == 0 then 0
    else if s[0] == c then 0
    else
      var k := FirstIndex(s[1..], c);
      assert s[..k + 1] == [s[0]] + s[1..][..k];
      1 + k
  }

  /** A first occurrence is determined by the two facts that define it. */
  lemma FirstIndexUnique(s: seq<Pixel>, c: Pixel, r: nat)
    requires r < |s| && s[r] == c && c !in s[..r]
    ensures FirstIndex(s, c) == r
  {
  }

  /** Appending to a sequence does not move the first occurrence of a value already in it. */
  lemma FirstIndexAppend(s: seq<Pixel>, x: Pixel, c: Pixel)
    requires c in s
    ensures FirstIndex(s + [x], c) == FirstIndex(s, c)
  {
    var r := FirstIndex(s, c);
    assert (s + [x])[..r] == s[..r];
    FirstIndexUnique(s + [x], c, r);
  }

  /**
    `Dedup` keeps first-seen order: an entry that comes earlier in the
    palette was first seen earlier in the input.
  */
  lemma {:induction false} DedupFirstSeenOrder(s: seq<Pixel>)
    ensures forall i, j :: 0 <= i < j < |Dedup(s)| ==>
              FirstIndex(s, Dedup(s)[i]) < FirstIndex(s, Dedup(s)[j])
  {
    if |s| > 0 {
      var init := s[..|s| - 1];
      var x := s[|s| - 1];
      assert s == init + [x];
      DedupFirstSeenOrder(init);
      var d := Dedup(init);
      forall c | c in d ensures FirstIndex(s, c) == FirstIndex(init, c) {
        FirstIndexAppend(init, x, c);
      }
      if x !in d {
        assert Dedup(s) == d + [x];
        assert FirstIndex(s, x) == |init| by {
          assert s[..|init|] == init;
          FirstIndexUnique(s, x, |init|);
        }
      }
    }
  }

  /**
    What `LoadColors` leaves in the palette for a valid image: no
    duplicates, every pixel of the image, nothing that is not a pixel of it,
    and the entries in the order in which the row-major scan first meets them.
  */
  lemma LoadedPalette(img: Texture)
    requires img.Valid()
    ensures Distinct(Dedup(RowMajor(img.pixels)))
    ensures forall y, x :: 0 <= y < img.height && 0 <= x < img.width ==>
              img.pixels[y][x] in Dedup(RowMajor(img.pixels))
    ensures forall c :: c in Dedup(RowMajor(img.pixels)) ==>
              exists y, x :: 0 <= y < img.height && 0 <= x < img.width && img.pixels[y][x] == c
    ensures forall i, j :: 0 <= i < j < |Dedup(RowMajor(img.pixels))| ==>
              FirstIndex(RowMajor(img.pixels), Dedup(RowMajor(img.pixels))[i])
              < FirstIndex(RowMajor(img.pixels), Dedup(RowMajor(img.pixels))[j])
  {
    RowMajorElements(img.pixels);
    DedupFirstSeenOrder(RowMajor(img.pixels));
  }

  // ---------------------------------------------------------------------
  // Nearest colour: linear arg-min with a strict comparison
  // ---------------------------------------------------------------------

  /** The distance `FindClosestColor` starts from before looking at any entry. */
  const INITIAL_CLOSEST: real := 1000.0

  /**
    The pair (closest, closest_i) after the scan has looked at the first
    `n` palette entries: an entry replaces the best so far only when it is
    strictly closer.
  */
  function Scan(colors: seq<Pixel>, target: Rgb, dist: Distance, n: nat): (res: (real, nat))
    requires n <= |colors|
    ensures res.1 == 0 || res.1 < n
  {
    if n == 0 then (INITIAL_CLOSEST, 0)
    else
      var prev := Scan(colors, target, dist, n - 1);
      var d := dist(target, colors[n - 1]);
      if d < prev.0 then (d, n - 1) else prev
  }

  /** The index `FindClosestColor` reads its result from. */
  function ClosestIndex(colors: seq<Pixel>, target: Rgb, dist: Distance): (k: nat)
    requires |colors| > 0
    ensures k < |colors|
  {
    Scan(colors, target, dist, |colors|).1
  }

  /** What the scan knows after `n` entries, split on whether any entry beat the initial bound. */
  lemma {:induction false} ScanInvariant(colors: seq<Pixel>, target: Rgb, dist: Distance, n: nat)
    requires n <= |colors|
    ensures Scan(colors, target, dist, n).0 <= INITIAL_CLOSEST
    ensures forall j :: 0 <= j < n ==> Scan(colors, target, dist, n).0 <= dist(target, colors[j])
    ensures Scan(colors, target, dist, n).0 == INITIAL_CLOSEST ==>
              Scan(colors, target, dist, n).1 == 0
    ensures Scan(colors, target, dist, n).0 < INITIAL_CLOSEST ==>
              var k := Scan(colors, target, dist, n).1;
              k < n && Scan(colors, target, dist, n).0 == dist(target, colors[k]) &&
              forall j :: 0 <= j < k ==> dist(target, colors[j]) > dist(target, colors[k])
  {
    if n > 0 {
      ScanInvariant(colors, target, dist, n - 1);
    }
  }

  /**
    `FindClosestColor` returns the palette entry at the lowest index among
    those at minimal distance from the target; when no entry is closer than
    the initial bound of 1000 it returns entry 0.
  */
  lemma ClosestIsFirstMinimum(colors: seq<Pixel>, target: Rgb, dist: Distance)
    requires |colors| > 0
    ensures ClosestIndex(colors, target, dist) < |colors|
    ensures (exists j :: 0 <= j < |colors| && dist(target, colors[j]) < INITIAL_CLOSEST) ==>
              var k := ClosestIndex(colors, target, dist);
              (forall j :: 0 <= j < |colors| ==> dist(target, colors[k]) <= dist(target, colors[j])) &&
              (forall j :: 0 <= j < k ==> dist(target, colors[j]) > dist(target, colors[k]))
    ensures (forall j :: 0 <= j < |colors| ==> dist(target, colors[j]) >= INITIAL_CLOSEST) ==>
              ClosestIndex(colors, target, dist) == 0
  {
    ScanInvariant(colors, target, dist, |colors|);
  }

  // ---------------------------------------------------------------------
  // Cyclic index
  // ---------------------------------------------------------------------

  /** 2^64: `index % colors.size()` converts the `int` index to the unsigned `size_t`. */
  const SIZE_T_MODULUS: int := 0x1_0000_0000_0000_0000

  /** The palette slot `CycleColors` reads for `index`: `index % colors.size()` in C++ arithmetic. */
  function CycleSlot(index: int, size: nat): (k: nat)
    requires size > 0
    ensures k < size
  {
    (index % SIZE_T_MODULUS) % size
  }

  /** An index that fits in `size_t` unchanged selects the slot `index % size`. */
  lemma CycleSlotInRange(index: int, size: nat)
    requires size > 0 && 0 <= index < SIZE_T_MODULUS
    ensures CycleSlot(index, size) == index % size
  {
    DivModUnique(index, SIZE_T_MODULUS, 0, index);
  }

  /**
    For a non-negative index the slot is the index modulo the palette size,
    and indices one palette length apart give the same slot.
  */
  lemma CycleSlotPeriodic(index: int, size: nat)
    requires size > 0 && 0 <= index && index + size < SIZE_T_MODULUS
    ensures CycleSlot(index, size) == index % size
    ensures CycleSlot(index + size, size) == CycleSlot(index, size)
  {
    assert index % SIZE_T_MODULUS == index;
    assert (index + size) % SIZE_T_MODULUS == index + size;
    var q := index / size;
    var r := index % size;
    assert index + size == (q + 1) * size + r;
    DivModUnique(index + size, size, q + 1, r);
  }
}
