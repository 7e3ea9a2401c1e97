/**
 * The non-graphical half of gameplay/gameplay.c: the lap and total
 * chronometers advanced once per millisecond, the end-of-race sequence of
 * Gameplay_update (saving the best time once, then leaving after the final
 * time has been shown for FINISH_DISPLAY_FRAMES frames), and the digit
 * tiles written into the 32 x 32 sub-screen map for the chronometer and
 * the lap counter.
 */
module GameplayScreen {
  import opened FixedMath
  import opened GameTypes
  import opened TextFile
  import opened StoragePB
  import opened GameplayLogic

  const MS_PER_SECOND: int := 1000
  const SECONDS_PER_MINUTE: int := 60
  const FINISH_DISPLAY_FRAMES: int := 150

  // ---------------------------------------------------------------------
  // The chronometer
  // ---------------------------------------------------------------------

  /** One millisecond of a chronometer: msec wraps at 1000 into sec, sec wraps at 60 into min. */
  function TickTime(t: Time): Time
  {
    var msec := TruncMod(t.msec + 1, MS_PER_SECOND);
    if msec != 0 then t.(msec := msec)
    else
      var sec := TruncMod(t.sec + 1, SECONDS_PER_MINUTE);
      Time(if sec == 0 then t.min + 1 else t.min, sec, msec)
  }

  /** A tick keeps a chronometer time valid and adds exactly one millisecond. */
  lemma TickAddsOneMillisecond(t: Time)
    requires ValidTime(t)
    ensures ValidTime(TickTime(t))
    ensures TotalMs(TickTime(t)) == TotalMs(t) + 1
  {
    var msec := TruncMod(t.msec + 1, MS_PER_SECOND);
    if t.msec + 1 < MS_PER_SECOND {
      assert msec == t.msec + 1;
    } else {
      assert msec == 0;
      var sec := TruncMod(t.sec + 1, SECONDS_PER_MINUTE);
      if t.sec + 1 < SECONDS_PER_MINUTE {
        assert sec == t.sec + 1;
      } else {
        assert sec == 0;
      }
    }
  }

  /** n ticks from a valid time reach the time n milliseconds later. */
  function TickTimes(t: Time, n: nat): Time
  {
    if n == 0 then t else TickTime(TickTimes(t, n - 1))
  }

  lemma {:induction false} TicksCountMilliseconds(t: Time, n: nat)
    requires ValidTime(t)
    ensures ValidTime(TickTimes(t, n)) && TotalMs(TickTimes(t, n)) == TotalMs(t) + n
  {
    if n > 0 {
      TicksCountMilliseconds(t, n - 1);
      TickAddsOneMillisecond(TickTimes(t, n - 1));
    }
  }

  // ---------------------------------------------------------------------
  // Digit tiles in the sub-screen map
  // ---------------------------------------------------------------------

  /** The sub-screen tiles: 32 x 32 tile entries, row-major. */
  const MAP_WIDTH: int := 32
  const MAP_CELLS: int := 32 * 32

  /** Glyph rows, and the tile used for a blank digit. */
  const GLYPH_HEIGHT: int := 8
  const BLANK_TILE: int := 32

  /** Columns printDigit writes: 4 for a digit or a blank, 2 for ':' (10) and '.' (11), none otherwise. */
  function GlyphWidth(number: int): int
  {
    if number < 10 then 4 else if number == 10 || number == 11 then 2 else 0
  }

  /** The tile printDigit puts in row i, column j of the glyph. */
  function GlyphTile(number: int, i: int, j: int): int
  {
    if number < 0 then BLANK_TILE
    else if number < 10 then i * 4 + j + 32 * number
    else if number == 10 then i * 4 + j + 32 * 10 + 2
    else i * 4 + j + 32 * 10
  }

  /** Cell k lies in the block of the given width whose top-left cell is (x, y). */
  predicate InBlock(k: int, x: int, y: int, width: int)
  {
    y <= k / MAP_WIDTH < y + GLYPH_HEIGHT && x <= k % MAP_WIDTH < x + width
  }

  /** The block fits in the map without wrapping into the next row. */
  predicate BlockFits(x: int, y: int, width: int)
  {
    0 <= width && 0 <= x && x + width <= MAP_WIDTH && 0 <= y && y + GLYPH_HEIGHT <= MAP_WIDTH
  }

  /** The map after filling the block with the glyph's tiles; every other cell as it was. */
  function Filled(m: seq<int>, number: int, x: int, y: int, width: int): (r: seq<int>)
    ensures |r| == |m|
  {
    seq(|m|, k requires 0 <= k < |m| =>
      if InBlock(k, x, y, width) then GlyphTile(number, k / MAP_WIDTH - y, k % MAP_WIDTH - x) else m[k])
  }

  /** The map after printDigit(map, number, x, y). */
  function Printed(m: seq<int>, number: int, x: int, y: int): (r: seq<int>)
    ensures |r| == |m|
  {
    Filled(m, number, x, y, GlyphWidth(number))
  }

  /** The cell of row r, column c. */
  lemma CellOf(r: int, c: int)
    requires 0 <= c < MAP_WIDTH
    ensures (r * MAP_WIDTH + c) / MAP_WIDTH == r && (r * MAP_WIDTH + c) % MAP_WIDTH == c
  {
  }

  /** Cell k lies in row i of the block, left of column j. */
  predicate InRow(k: int, x: int, y: int, width: int, i: int, j: int)
  {
    InBlock(k, x, y, width) && k / MAP_WIDTH == y + i && k % MAP_WIDTH < x + j
  }

  /** One row of the glyph: the inner loop of printDigit. */
  method FillRow(tiles: array<int>, number: int, x: int, y: int, width: int, i: int)
    requires tiles.Length == MAP_CELLS && BlockFits(x, y, width) && 0 <= i < GLYPH_HEIGHT
    modifies tiles
    ensures forall k | 0 <= k < MAP_CELLS ::
              tiles[k] == if InRow(k, x, y, width, i, width) then GlyphTile(number, i, k % MAP_WIDTH - x) else old(tiles[k])
  {
    var j := 0;
    while j < width
      invariant 0 <= j <= width
      invariant forall k | 0 <= k < MAP_CELLS ::
                  tiles[k] == if InRow(k, x, y, width, i, j) then GlyphTile(number, i, k % MAP_WIDTH - x) else old(tiles[k])
    {
      CellOf(i + y, j + x);
      tiles[(i + y) * MAP_WIDTH + j + x] := GlyphTile(number, i, j);
      j := j + 1;
    }
  }

  /** The nested loops of printDigit over one glyph block. */
  method FillBlock(tiles: array<int>, number: int, x: int, y: int, width: int)
    requires tiles.Length == MAP_CELLS && BlockFits(x, y, width)
    modifies tiles
    ensures tiles[..] == Filled(old(tiles[..]), number, x, y, width)
  {
    ghost var m0 := tiles[..];
    var i := 0;
    while i < GLYPH_HEIGHT
      invariant 0 <= i <= GLYPH_HEIGHT
      invariant forall k | 0 <= k < MAP_CELLS ::
                  tiles[k] == if InBlock(k, x, y, width) && k / MAP_WIDTH < y + i
                              then GlyphTile(number, k / MAP_WIDTH - y, k % MAP_WIDTH - x) else m0[k]
    {
      FillRow(tiles, number, x, y, width, i);
      i := i + 1;
    }
    assert forall k | 0 <= k < MAP_CELLS :: tiles[k] == Filled(m0, number, x, y, width)[k];
  }

  /**
   * printDigit: a digit 0..9 as an 8 x 4 block of its 32 tiles, a negative
   * number as an 8 x 4 block of blank tiles, ':' (10) and '.' (11) as
   * 8 x 2 blocks, and nothing at all for 12 and above.
   */
  method PrintDigit(tiles: array<int>, number: int, x: int, y: int)
    requires tiles.Length == MAP_CELLS && BlockFits(x, y, GlyphWidth(number))
    modifies tiles
    ensures tiles[..] == Printed(old(tiles[..]), number, x, y)
  {
    if number < 10 {
      FillBlock(tiles, number, x, y, 4);
    }
    if number == 10 {
      FillBlock(tiles, number, x, y, 2);
    }
    if number == 11 {
      FillBlock(tiles, number, x, y, 2);
    }
    if number > 11 {
      assert tiles[..] == Printed(old(tiles[..]), number, x, y);
    }
  }

  /** printDigit writes only inside its block, and the glyph of a digit is its own 32 tiles. */
  lemma PrintedBlock(m: seq<int>, number: int, x: int, y: int, k: int)
    requires 0 <= k < |m|
    ensures !InBlock(k, x, y, GlyphWidth(number)) ==> Printed(m, number, x, y)[k] == m[k]
    ensures number >= 12 ==> Printed(m, number, x, y) == m
    ensures InBlock(k, x, y, GlyphWidth(number)) && 0 <= number < 10 ==>
      Printed(m, number, x, y)[k] / 32 == number && 0 <= Printed(m, number, x, y)[k] % 32 < 32
    ensures InBlock(k, x, y, GlyphWidth(number)) && number < 0 ==> Printed(m, number, x, y)[k] == BLANK_TILE
  {
    if number >= 12 {
      assert forall c | 0 <= c < |m| :: Printed(m, number, x, y)[c] == m[c];
    }
  }

  /**
   * The number a 4-column block shows, read from its cell in row 0,
   * column 1: tile 1 + 32 n for the digit n, anything else (the blank
   * tile among them) reads as -1.
   */
  function ShownNumber(m: seq<int>, x: int, y: int): int
    requires 0 <= y * MAP_WIDTH + x + 1 < |m|
  {
    var v := m[y * MAP_WIDTH + x + 1];
    if v % 32 == 1 && 0 <= v / 32 <= 9 then v / 32 else -1
  }

  /** The digits updateChronoDisp prints for a two-digit field: blanks above the limit or below 0. */
  function TwoDigits(v: int, limit: int): (int, int)
  {
    var v := if v > limit then -1 else v;
    if v >= 0 then (v / 10, v % 10) else (v, v)
  }

  /** The three milliseconds digits: blanks above 999 or below 0. */
  function ThreeDigits(v: int): (int, int, int)
  {
    var v := if v > 999 then -1 else v;
    if v >= 0 then (v / 100, (v % 100) / 10, (v % 10) % 10) else (v, v, v)
  }

  /** Row of the chronometer on the sub screen. */
  const CHRONO_ROW: int := 8

  /** Two digits and a separator on the chronometer row. */
  function PrintedField2(m: seq<int>, digits: (int, int), x: int, separator: int): seq<int>
  {
    Printed(Printed(Printed(m, digits.0, x, CHRONO_ROW), digits.1, x + 4, CHRONO_ROW), separator, x + 8, CHRONO_ROW)
  }

  /** Three digits on the chronometer row. */
  function PrintedField3(m: seq<int>, digits: (int, int, int), x: int): seq<int>
  {
    Printed(Printed(Printed(m, digits.0, x, CHRONO_ROW), digits.1, x + 4, CHRONO_ROW), digits.2, x + 8, CHRONO_ROW)
  }

  /** The map after updateChronoDisp(map, min, sec, msec): mm:ss.mmm on row 8. */
  function ChronoShown(m: seq<int>, min: int, sec: int, msec: int): seq<int>
  {
    PrintedField3(PrintedField2(PrintedField2(m, TwoDigits(min, 59), 0, 10), TwoDigits(sec, 59), 10, 11), ThreeDigits(msec), 20)
  }

  /** updateChronoDisp. */
  method UpdateChronoDisp(tiles: array<int>, min: int, sec: int, msec: int)
    requires tiles.Length == MAP_CELLS
    modifies tiles
    ensures tiles[..] == ChronoShown(old(tiles[..]), min, sec, msec)
  {
    var min, sec, msec := min, sec, msec;
    var number := min;
    if min > 59 {
      min, number := -1, -1;
    }
    if min >= 0 {
      number := min / 10;
    }
    PrintDigit(tiles, number, 0, CHRONO_ROW);
    if min >= 0 {
      number := min % 10;
    }
    PrintDigit(tiles, number, 4, CHRONO_ROW);
    PrintDigit(tiles, 10, 8, CHRONO_ROW);

    number := sec;
    if sec > 59 {
      sec, number := -1, -1;
    }
    if sec >= 0 {
      number := sec / 10;
    }
    PrintDigit(tiles, number, 10, CHRONO_ROW);
    if sec >= 0 {
      number := sec % 10;
    }
    PrintDigit(tiles, number, 14, CHRONO_ROW);
    PrintDigit(tiles, 11, 18, CHRONO_ROW);

    number := msec;
    if msec > 999 {
      msec, number := -1, -1;
    }
    if msec >= 0 {
      number := msec / 100;
    }
    PrintDigit(tiles, number, 20, CHRONO_ROW);
    if msec >= 0 {
      number := (msec % 100) / 10;
    }
    PrintDigit(tiles, number, 24, CHRONO_ROW);
    if msec >= 0 {
      number := (msec % 10) % 10;
    }
    PrintDigit(tiles, number, 28, CHRONO_ROW);
  }

  /** A digit block reads back as its digit, or as -1 when blank. */
  lemma PrintShowsDigit(m: seq<int>, number: int, x: int, y: int)
    requires |m| == MAP_CELLS && number < 10 && BlockFits(x, y, 4)
    ensures ShownNumber(Printed(m, number, x, y), x, y) == if number >= 0 then number else -1
  {
    CellOf(y, x + 1);
  }

  /** Printing a block leaves the number shown by a block it does not cover. */
  lemma PrintElsewhere(m: seq<int>, number: int, x: int, y: int, cx: int)
    requires |m| == MAP_CELLS && BlockFits(x, y, GlyphWidth(number)) && 0 <= cx && cx + 1 < MAP_WIDTH
    requires cx + 1 < x || x + GlyphWidth(number) <= cx + 1
    ensures ShownNumber(Printed(m, number, x, y), cx, y) == ShownNumber(m, cx, y)
  {
    CellOf(y, cx + 1);
  }

  /** A two-digit field reads back as its digits. */
  lemma Field2Shows(m: seq<int>, digits: (int, int), x: int, separator: int)
    requires |m| == MAP_CELLS && digits.0 < 10 && digits.1 < 10 && (separator == 10 || separator == 11)
    requires 0 <= x && x + 10 <= MAP_WIDTH
    ensures var c := PrintedField2(m, digits, x, separator);
      ShownNumber(c, x, CHRONO_ROW) == (if digits.0 >= 0 then digits.0 else -1) &&
      ShownNumber(c, x + 4, CHRONO_ROW) == (if digits.1 >= 0 then digits.1 else -1)
  {
    var y := CHRONO_ROW;
    var c1 := Printed(m, digits.0, x, y);
    var c2 := Printed(c1, digits.1, x + 4, y);
    PrintShowsDigit(m, digits.0, x, y);
    PrintElsewhere(c1, digits.1, x + 4, y, x);
    PrintElsewhere(c2, separator, x + 8, y, x);
    PrintShowsDigit(c1, digits.1, x + 4, y);
    PrintElsewhere(c2, separator, x + 8, y, x + 4);
  }

  /** A two-digit field leaves the blocks left of it. */
  lemma Field2Elsewhere(m: seq<int>, digits: (int, int), x: int, separator: int, cx: int)
    requires |m| == MAP_CELLS && digits.0 < 10 && digits.1 < 10 && (separator == 10 || separator == 11)
    requires 0 <= x && x + 10 <= MAP_WIDTH && 0 <= cx && cx + 1 < x
    ensures ShownNumber(PrintedField2(m, digits, x, separator), cx, CHRONO_ROW) == ShownNumber(m, cx, CHRONO_ROW)
  {
    var y := CHRONO_ROW;
    var c1 := Printed(m, digits.0, x, y);
    var c2 := Printed(c1, digits.1, x + 4, y);
    PrintElsewhere(m, digits.0, x, y, cx);
    PrintElsewhere(c1, digits.1, x + 4, y, cx);
    PrintElsewhere(c2, separator, x + 8, y, cx);
  }

  /** A three-digit field reads back as its digits. */
  lemma Field3Shows(m: seq<int>, digits: (int, int, int), x: int)
    requires |m| == MAP_CELLS && digits.0 < 10 && digits.1 < 10 && digits.2 < 10
    requires 0 <= x && x + 12 <= MAP_WIDTH
    ensures var c := PrintedField3(m, digits, x);
      ShownNumber(c, x, CHRONO_ROW) == (if digits.0 >= 0 then digits.0 else -1) &&
      ShownNumber(c, x + 4, CHRONO_ROW) == (if digits.1 >= 0 then digits.1 else -1) &&
      ShownNumber(c, x + 8, CHRONO_ROW) == (if digits.2 >= 0 then digits.2 else -1)
  {
    var y := CHRONO_ROW;
    var c1 := Printed(m, digits.0, x, y);
    var c2 := Printed(c1, digits.1, x + 4, y);
    PrintShowsDigit(m, digits.0, x, y);
    PrintElsewhere(c1, digits.1, x + 4, y, x);
    PrintElsewhere(c2, digits.2, x + 8, y, x);
    PrintShowsDigit(c1, digits.1, x + 4, y);
    PrintElsewhere(c2, digits.2, x + 8, y, x + 4);
    PrintShowsDigit(c2, digits.2, x + 8, y);
  }

  /** A three-digit field leaves the blocks left of it. */
  lemma Field3Elsewhere(m: seq<int>, digits: (int, int, int), x: int, cx: int)
    requires |m| == MAP_CELLS && digits.0 < 10 && digits.1 < 10 && digits.2 < 10
    requires 0 <= x && x + 12 <= MAP_WIDTH && 0 <= cx && cx + 1 < x
    ensures ShownNumber(PrintedField3(m, digits, x), cx, CHRONO_ROW) == ShownNumber(m, cx, CHRONO_ROW)
  {
    var y := CHRONO_ROW;
    var c1 := Printed(m, digits.0, x, y);
    var c2 := Printed(c1, digits.1, x + 4, y);
    PrintElsewhere(m, digits.0, x, y, cx);
    PrintElsewhere(c1, digits.1, x + 4, y, cx);
    PrintElsewhere(c2, digits.2, x + 8, y, cx);
  }

  /** The minutes field after updateChronoDisp. */
  lemma ChronoShowsMinutes(m: seq<int>, min: int, sec: int, msec: int)
    requires |m| == MAP_CELLS
    ensures var c := ChronoShown(m, min, sec, msec);
      if 0 <= min <= 59 then ShownNumber(c, 0, CHRONO_ROW) == min / 10 && ShownNumber(c, 4, CHRONO_ROW) == min % 10
      else ShownNumber(c, 0, CHRONO_ROW) == -1 && ShownNumber(c, 4, CHRONO_ROW) == -1
  {
    var dm, ds, dt := TwoDigits(min, 59), TwoDigits(sec, 59), ThreeDigits(msec);
    var a := PrintedField2(m, dm, 0, 10);
    var b := PrintedField2(a, ds, 10, 11);
    Field2Shows(m, dm, 0, 10);
    Field2Elsewhere(a, ds, 10, 11, 0);
    Field2Elsewhere(a, ds, 10, 11, 4);
    Field3Elsewhere(b, dt, 20, 0);
    Field3Elsewhere(b, dt, 20, 4);
  }

  /** The seconds field after updateChronoDisp. */
  lemma ChronoShowsSeconds(m: seq<int>, min: int, sec: int, msec: int)
    requires |m| == MAP_CELLS
    ensures var c := ChronoShown(m, min, sec, msec);
      if 0 <= sec <= 59 then ShownNumber(c, 10, CHRONO_ROW) == sec / 10 && ShownNumber(c, 14, CHRONO_ROW) == sec % 10
      else ShownNumber(c, 10, CHRONO_ROW) == -1 && ShownNumber(c, 14, CHRONO_ROW) == -1
  {
    var dm, ds, dt := TwoDigits(min, 59), TwoDigits(sec, 59), ThreeDigits(msec);
    var a := PrintedField2(m, dm, 0, 10);
    var b := PrintedField2(a, ds, 10, 11);
    Field2Shows(a, ds, 10, 11);
    Field3Elsewhere(b, dt, 20, 10);
    Field3Elsewhere(b, dt, 20, 14);
  }

  /** The milliseconds field after updateChronoDisp. */
  lemma ChronoShowsMilliseconds(m: seq<int>, min: int, sec: int, msec: int)
    requires |m| == MAP_CELLS
    ensures var c := ChronoShown(m, min, sec, msec);
      if 0 <= msec <= 999 then
        ShownNumber(c, 20, CHRONO_ROW) == msec / 100 && ShownNumber(c, 24, CHRONO_ROW) == msec / 10 % 10 &&
        ShownNumber(c, 28, CHRONO_ROW) == msec % 10
      else ShownNumber(c, 20, CHRONO_ROW) == -1 && ShownNumber(c, 24, CHRONO_ROW) == -1 && ShownNumber(c, 28, CHRONO_ROW) == -1
  {
    var dm, ds, dt := TwoDigits(min, 59), TwoDigits(sec, 59), ThreeDigits(msec);
    var a := PrintedField2(m, dm, 0, 10);
    var b := PrintedField2(a, ds, 10, 11);
    Field3Shows(b, dt, 20);
    if 0 <= msec <= 999 {
      TensDigit(msec);
    }
  }

  /** The tens digit of a millisecond count, taken as updateChronoDisp does. */
  lemma TensDigit(msec: int)
    requires 0 <= msec <= 999
    ensures msec % 100 / 10 == msec / 10 % 10 && msec % 10 % 10 == msec % 10
  {
    var h, t, u := msec / 100, msec % 100 / 10, msec % 10;
    assert msec == 100 * h + 10 * t + u;
    assert msec / 10 == 10 * h + t;
  }

  // ---------------------------------------------------------------------
  // The lap counter
  // ---------------------------------------------------------------------

  /** Row of the lap counter on the sub screen. */
  const LAP_ROW: int := 0

  /** The map after updateLapDisp_Sub(currentLap, totalLaps): "l:t" or "l:tt" on row 0. */
  function LapShown(m: seq<int>, currentLap: int, totalLaps: int): seq<int>
  {
    var a := if 0 <= currentLap <= 9 then Printed(m, currentLap, 0, LAP_ROW) else m;
    var b := Printed(a, 10, 4, LAP_ROW);
    if 0 <= totalLaps <= 9 then Printed(b, totalLaps, 6, LAP_ROW)
    else if totalLaps >= 10 then Printed(Printed(b, totalLaps / 10, 6, LAP_ROW), totalLaps % 10, 10, LAP_ROW)
    else b
  }

  /** updateLapDisp_Sub, on the sub-screen map given as tiles. */
  method UpdateLapDisp(tiles: array<int>, currentLap: int, totalLaps: int)
    requires tiles.Length == MAP_CELLS
    modifies tiles
    ensures tiles[..] == LapShown(old(tiles[..]), currentLap, totalLaps)
  {
    if currentLap >= 0 && currentLap <= 9 {
      PrintDigit(tiles, currentLap, 0, LAP_ROW);
    }
    PrintDigit(tiles, 10, 4, LAP_ROW);
    if totalLaps >= 0 && totalLaps <= 9 {
      PrintDigit(tiles, totalLaps, 6, LAP_ROW);
    } else if totalLaps >= 10 {
      PrintDigit(tiles, totalLaps / 10, 6, LAP_ROW);
      PrintDigit(tiles, totalLaps % 10, 10, LAP_ROW);
    }
  }

  /**
   * The lap counter shows a current lap in 0..9 (and leaves the old
   * digit otherwise), and a total of up to 99 laps as one or two digits.
   */
  lemma LapShowsLaps(m: seq<int>, currentLap: int, totalLaps: int)
    requires |m| == MAP_CELLS
    ensures var c := LapShown(m, currentLap, totalLaps);
      ShownNumber(c, 0, LAP_ROW) == (if 0 <= currentLap <= 9 then currentLap else ShownNumber(m, 0, LAP_ROW)) &&
      (0 <= totalLaps <= 9 ==> ShownNumber(c, 6, LAP_ROW) == totalLaps) &&
      (10 <= totalLaps <= 99 ==> ShownNumber(c, 6, LAP_ROW) == totalLaps / 10 && ShownNumber(c, 10, LAP_ROW) == totalLaps % 10)
  {
    var y := LAP_ROW;
    var a := if 0 <= currentLap <= 9 then Printed(m, currentLap, 0, y) else m;
    var b := Printed(a, 10, 4, y);
    if 0 <= currentLap <= 9 {
      PrintShowsDigit(m, currentLap, 0, y);
    }
    PrintElsewhere(a, 10, 4, y, 0);
    if 0 <= totalLaps <= 9 {
      PrintElsewhere(b, totalLaps, 6, y, 0);
      PrintShowsDigit(b, totalLaps, 6, y);
    } else if totalLaps >= 10 {
      var t := Printed(b, totalLaps / 10, 6, y);
      PrintElsewhere(b, totalLaps / 10, 6, y, 0);
      PrintElsewhere(t, totalLaps % 10, 10, y, 0);
      if totalLaps <= 99 {
        PrintShowsDigit(b, totalLaps / 10, 6, y);
        PrintElsewhere(t, totalLaps % 10, 10, y, 6);
        PrintShowsDigit(t, totalLaps % 10, 10, y);
      }
    }
  }

  // ---------------------------------------------------------------------
  // The gameplay screen state
  // ---------------------------------------------------------------------

  const ZERO_TIME: Time := Time(0, 0, 0)

  /** bestRaceMin/Sec/Msec of -1: no best time exists. */
  const NO_BEST_TIME: Time := Time(-1, -1, -1)

  /** The best time shown after the race: the file's record after the save, or this race's time if none is found. */
  function BestAfterSave(file: Option<string>, canWrite: bool, m: Map, t: Time): Time
  {
    var loaded := LoadedTime(SaveOutcome(file, canWrite, m, t).1, m);
    if loaded.Some? then loaded.value else t
  }

  /**
   * With a whole-line file that can be rewritten and has room, the best
   * time shown after a race is the previous record when this race did not
   * beat it, and this race's time otherwise.
   */
  lemma BestShownIsFastest(file: Option<string>, m: Map, t: Time)
    requires file.Some? ==> forall k | 0 <= k < |FgetsLines(file.value, PB_LINE_BUFFER)| ::
      FullLine(FgetsLines(file.value, PB_LINE_BUFFER)[k], PB_LINE_BUFFER)
    requires file.Some? ==> |Kept(FgetsLines(file.value, PB_LINE_BUFFER))| < STORAGE_MAX_MAP_RECORDS
    requires ValidTime(t) && t.min < 100
    ensures var previous := LoadedTime(file, m);
      BestAfterSave(file, true, m, t) ==
        if previous.Some? && !IsTimeFaster(t, previous.value) then previous.value else t
  {
    SaveThenLoad(file, true, m, t);
  }

  /** The statics of gameplay.c that the race logic reads and writes. */
  datatype ScreenVars = ScreenVars(
    lap: Time, total: Time, best: Time, currentLap: int,
    finishDisplayCounter: int, isNewRecord: bool, hasSavedBestTime: bool)

  class RaceScreen {
    var raceMin: int
    var raceSec: int
    var raceMsec: int
    var currentLap: int
    var finishDisplayCounter: int
    var totalRaceMin: int
    var totalRaceSec: int
    var totalRaceMsec: int
    var bestRaceMin: int
    var bestRaceSec: int
    var bestRaceMsec: int
    var isNewRecord: bool
    var hasSavedBestTime: bool

    function LapTime(): Time
      reads this
    {
      Time(raceMin, raceSec, raceMsec)
    }

    function TotalTime(): Time
      reads this
    {
      Time(totalRaceMin, totalRaceSec, totalRaceMsec)
    }

    function BestTime(): Time
      reads this
    {
      Time(bestRaceMin, bestRaceSec, bestRaceMsec)
    }

    function Vars(): ScreenVars
      reads this
    {
      ScreenVars(LapTime(), TotalTime(), BestTime(), currentLap, finishDisplayCounter, isNewRecord, hasSavedBestTime)
    }

    /** The initial values of the statics. */
    constructor()
      ensures Vars() == ScreenVars(ZERO_TIME, ZERO_TIME, NO_BEST_TIME, 1, 0, false, false)
    {
      raceMin, raceSec, raceMsec := 0, 0, 0;
      totalRaceMin, totalRaceSec, totalRaceMsec := 0, 0, 0;
      bestRaceMin, bestRaceSec, bestRaceMsec := -1, -1, -1;
      currentLap, finishDisplayCounter := 1, 0;
      isNewRecord, hasSavedBestTime := false, false;
    }

    /**
     * The state part of Graphical_Gameplay_initialize: both chronometers
     * at zero, lap 1, nothing shown or saved yet, and the stored best time
     * of the map (or none).
     */
    method StartRace(bestTimesFile: Option<string>, m: Map)
      modifies this
      ensures Vars() == ScreenVars(ZERO_TIME, ZERO_TIME,
        (var loaded := LoadedTime(bestTimesFile, m); if loaded.Some? then loaded.value else NO_BEST_TIME),
        1, 0, false, false)
    {
      raceMin, raceSec, raceMsec := 0, 0, 0;
      totalRaceMin, totalRaceSec, totalRaceMsec := 0, 0, 0;
      currentLap := 1;
      finishDisplayCounter := 0;
      hasSavedBestTime := false;
      var loaded := LoadBestTime(bestTimesFile, m);
      if loaded.Some? {
        bestRaceMin, bestRaceSec, bestRaceMsec := loaded.value.min, loaded.value.sec, loaded.value.msec;
      } else {
        bestRaceMin, bestRaceSec, bestRaceMsec := -1, -1, -1;
      }
      isNewRecord := false;
    }

    /** Gameplay_IncrementTimer: both chronometers tick, unless the race is completed. */
    method IncrementTimer(race: RaceController)
      modifies this
      ensures Vars() == if race.raceFinished then old(Vars())
                        else old(Vars()).(lap := TickTime(old(LapTime())), total := TickTime(old(TotalTime())))
    {
      if race.raceFinished {
        return;
      }
      raceMsec := TruncMod(raceMsec + 1, MS_PER_SECOND);
      if raceMsec == 0 {
        raceSec := TruncMod(raceSec + 1, SECONDS_PER_MINUTE);
        if raceSec == 0 {
          raceMin := raceMin + 1;
        }
      }
      totalRaceMsec := TruncMod(totalRaceMsec + 1, MS_PER_SECOND);
      if totalRaceMsec == 0 {
        totalRaceSec := TruncMod(totalRaceSec + 1, SECONDS_PER_MINUTE);
        if totalRaceSec == 0 {
          totalRaceMin := totalRaceMin + 1;
        }
      }
    }

    /**
     * The save block of Gameplay_update: offer the total time to the
     * best-times file, then show the best time read back from it (this
     * race's time when none is found), and remember that it was saved.
     */
    method SaveFinalTime(bestTimesFile: Option<string>, canWrite: bool, m: Map) returns (newFile: Option<string>)
      modifies this
      ensures newFile == SaveOutcome(bestTimesFile, canWrite, m, old(TotalTime())).1
      ensures Vars() == old(Vars()).(best := BestAfterSave(bestTimesFile, canWrite, m, old(TotalTime())),
                                     isNewRecord := SaveOutcome(bestTimesFile, canWrite, m, old(TotalTime())).0,
                                     hasSavedBestTime := true)
    {
      var ok;
      ok, newFile := SaveBestTime(bestTimesFile, canWrite, m, TotalTime());
      isNewRecord := ok;
      var loaded := LoadBestTime(newFile, m);
      if loaded.Some? {
        bestRaceMin, bestRaceSec, bestRaceMsec := loaded.value.min, loaded.value.sec, loaded.value.msec;
      } else {
        bestRaceMin, bestRaceSec, bestRaceMsec := totalRaceMin, totalRaceSec, totalRaceMsec;
      }
      hasSavedBestTime := true;
    }

    /**
     * Gameplay_update. SELECT stops the race and returns to the home page.
     * Otherwise, on the first update after the race finished, the total
     * time is offered to the best-times file once and the best time is
     * read back from it; once the finish delay is over each update counts
     * a frame, and after FINISH_DISPLAY_FRAMES frames the screen is left
     * for the home page (multiplayer) or the play-again screen.
     */
    method Update(selectPressed: bool, race: RaceController, bestTimesFile: Option<string>, canWrite: bool, m: Map)
      returns (next: GameState, newFile: Option<string>)
      modifies this, race
      ensures selectPressed ==>
        next == HomePage && newFile == bestTimesFile && Vars() == old(Vars()) &&
        race.Vars() == old(race.Vars()).(raceStarted := false)
      ensures !selectPressed ==> race.Vars() == old(race.Vars())
      ensures !selectPressed ==>
        var saving := race.raceFinished && !old(hasSavedBestTime);
        var counting := race.raceFinished && race.finishDelayTimer == 0;
        newFile == (if saving then SaveOutcome(bestTimesFile, canWrite, m, old(TotalTime())).1 else bestTimesFile) &&
        Vars() == old(Vars()).(
          best := if saving then BestAfterSave(bestTimesFile, canWrite, m, old(TotalTime())) else old(BestTime()),
          isNewRecord := if saving then SaveOutcome(bestTimesFile, canWrite, m, old(TotalTime())).0 else old(isNewRecord),
          hasSavedBestTime := old(hasSavedBestTime) || race.raceFinished,
          finishDisplayCounter := if counting then old(finishDisplayCounter) + 1 else old(finishDisplayCounter)) &&
        next == if counting && finishDisplayCounter >= FINISH_DISPLAY_FRAMES
                then (if race.gameMode == MultiPlayer then HomePage else PlayAgain) else Gameplay
    {
      if selectPressed {
        race.Stop();
        return HomePage, bestTimesFile;
      }
      newFile := bestTimesFile;
      if race.raceFinished && !hasSavedBestTime {
        newFile := SaveFinalTime(bestTimesFile, canWrite, m);
      }
      if race.raceFinished && race.finishDelayTimer == 0 {
        finishDisplayCounter := finishDisplayCounter + 1;
        if finishDisplayCounter >= FINISH_DISPLAY_FRAMES {
          if race.gameMode == MultiPlayer {
            return HomePage, newFile;
          } else {
            return PlayAgain, newFile;
          }
        }
      }
      return Gameplay, newFile;
    }
  }
}
