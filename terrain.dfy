/**
 * Terrain detection (gameplay/terrain_detection.c): whether a world pixel
 * lies on sand, decided by reading the colour the background tilemap shows
 * there. The video memory the C reads through BG_MAP_RAM, BG_TILE_RAM(1) and
 * BG_PALETTE is a parameter of the model.
 */
module Terrain {
  import opened FixedMath

  const TILE_SIZE: int := 8
  const QUAD_SIZE: int := 256
  const QUAD_SIZE_DOUBLE: int := 512
  const TILE_INDEX_MASK: bv16 := 0x3FF
  const TILE_DATA_SIZE: int := 64
  const TILE_WIDTH_PIXELS: int := 8
  const SCREEN_SIZE_TILES: int := 32
  const QUADRANT_GRID_SIZE: int := 3
  const COLOR_5BIT_MASK: bv16 := 0x1F
  const COLOR_RED_SHIFT: bv16 := 0
  const COLOR_GREEN_SHIFT: bv16 := 5
  const COLOR_BLUE_SHIFT: bv16 := 10
  const TERRAIN_COLOR_TOLERANCE_5BIT: int := 1

  /** A BG_MAP_RAM block is 2 KiB of the DS video memory: 1024 map entries. */
  const MAP_BLOCK_ENTRIES: int := 1024

  /** A colour split into its three 5-bit channels. */
  datatype Rgb5 = Rgb5(r: int, g: int, b: int)

  const GRAY_MAIN: Rgb5 := Rgb5(12, 12, 12)
  const GRAY_LIGHT: Rgb5 := Rgb5(14, 14, 14)
  const SAND_PRIMARY: Rgb5 := Rgb5(20, 18, 12)
  const SAND_SECONDARY: Rgb5 := Rgb5(22, 20, 14)

  /** colorMatches5bit: every channel within the tolerance of the target's. */
  predicate ColorMatches(c: Rgb5, target: Rgb5, tolerance: int)
  {
    Abs(c.r - target.r) <= tolerance && Abs(c.g - target.g) <= tolerance && Abs(c.b - target.b) <= tolerance
  }

  /** A colour matches a target exactly when each channel lies in the box of half-width tolerance around it. */
  lemma ColorMatchesBox(c: Rgb5, target: Rgb5, tolerance: int)
    ensures ColorMatches(c, target, tolerance) <==>
      target.r - tolerance <= c.r <= target.r + tolerance &&
      target.g - tolerance <= c.g <= target.g + tolerance &&
      target.b - tolerance <= c.b <= target.b + tolerance
  {
  }

  /** isGrayTrack5bit: main or light track gray. */
  predicate IsGrayTrack(c: Rgb5)
  {
    ColorMatches(c, GRAY_MAIN, TERRAIN_COLOR_TOLERANCE_5BIT) ||
    ColorMatches(c, GRAY_LIGHT, TERRAIN_COLOR_TOLERANCE_5BIT)
  }

  /** One of the two sand shades. */
  predicate IsSandShade(c: Rgb5)
  {
    ColorMatches(c, SAND_PRIMARY, TERRAIN_COLOR_TOLERANCE_5BIT) ||
    ColorMatches(c, SAND_SECONDARY, TERRAIN_COLOR_TOLERANCE_5BIT)
  }

  /** The shifted-and-masked channels of a BGR555 palette entry. */
  function Channels(color: bv16): (c: Rgb5)
    ensures 0 <= c.r < 32 && 0 <= c.g < 32 && 0 <= c.b < 32
  {
    Rgb5(((color >> COLOR_RED_SHIFT) & COLOR_5BIT_MASK) as int,
         ((color >> COLOR_GREEN_SHIFT) & COLOR_5BIT_MASK) as int,
         ((color >> COLOR_BLUE_SHIFT) & COLOR_5BIT_MASK) as int)
  }

  /** The three regions of video memory the lookup reads. */
  datatype Vram = Vram(mapRam: seq<bv16>, tileData: seq<bv8>, palette: seq<bv16>)

  /** Four map blocks (the 2 x 2 screens of a quadrant), 1024 tiles of 64 bytes, 256 colours. */
  predicate ValidVram(v: Vram)
  {
    |v.mapRam| >= 4 * MAP_BLOCK_ENTRIES && |v.tileData| >= 1024 * TILE_DATA_SIZE && |v.palette| >= 256
  }

  /** The quadrant's window: 512 x 512 pixels starting at its own top-left corner. */
  function Local(x: int, y: int, quad: int): (p: (int, int))
    requires 0 <= quad < 9
  {
    var col := quad % QUADRANT_GRID_SIZE;
    var row := quad / QUADRANT_GRID_SIZE;
    (x - col * QUAD_SIZE, y - row * QUAD_SIZE)
  }

  predicate InWindow(localX: int, localY: int)
  {
    0 <= localX < QUAD_SIZE_DOUBLE && 0 <= localY < QUAD_SIZE_DOUBLE
  }

  /** The map block of a window pixel: one of the four screens of the window. */
  function ScreenBase(localX: int, localY: int): (b: int)
    requires InWindow(localX, localY)
    ensures 0 <= b < 4
  {
    var tileX := localX / TILE_SIZE;
    var tileY := localY / TILE_SIZE;
    (tileY / SCREEN_SIZE_TILES) * 2 + tileX / SCREEN_SIZE_TILES
  }

  /**
   * The map entry for a window pixel: the window is 2 x 2 screens of 32 x 32
   * tiles, screen (sx, sy) using map block 2 * sy + sx.
   */
  function MapSlot(localX: int, localY: int): (i: int)
    requires InWindow(localX, localY)
    ensures 0 <= i < 4 * MAP_BLOCK_ENTRIES
  {
    var tileX := localX / TILE_SIZE;
    var tileY := localY / TILE_SIZE;
    ScreenBase(localX, localY) * MAP_BLOCK_ENTRIES + (tileY % SCREEN_SIZE_TILES) * SCREEN_SIZE_TILES + tileX % SCREEN_SIZE_TILES
  }

  /** The tile number of a map entry: its low 10 bits. */
  function TileIndex(entry: bv16): (t: int)
    ensures 0 <= t < 1024
  {
    (entry & TILE_INDEX_MASK) as int
  }

  /** The palette entry shown at a window pixel (8 bits per pixel tiles). */
  function PixelColor(v: Vram, localX: int, localY: int): (color: bv16)
    requires ValidVram(v) && InWindow(localX, localY)
  {
    var tileIndex := TileIndex(v.mapRam[MapSlot(localX, localY)]);
    var offset := tileIndex * TILE_DATA_SIZE + (localY % TILE_WIDTH_PIXELS) * TILE_WIDTH_PIXELS + localX % TILE_WIDTH_PIXELS;
    v.palette[v.tileData[offset] as int]
  }

  /**
   * Terrain_IsOnSand: false outside the quadrant's window; otherwise the
   * pixel's colour decides, gray track first, then the sand shades.
   */
  function IsOnSand(x: int, y: int, quad: int, v: Vram): (r: bool)
    requires 0 <= quad < 9 && ValidVram(v)
    ensures r ==> InWindow(Local(x, y, quad).0, Local(x, y, quad).1)
  {
    var (localX, localY) := Local(x, y, quad);
    if !InWindow(localX, localY) then false
    else
      var c := Channels(PixelColor(v, localX, localY));
      if IsGrayTrack(c) then false else IsSandShade(c)
  }

  /** No colour is both a track gray and a sand shade: their channel boxes are apart. */
  lemma GrayAndSandAreApart(c: Rgb5)
    ensures !(IsGrayTrack(c) && IsSandShade(c))
  {
  }

  /** Each sand shade is a box of channel values one either side of its centre. */
  lemma SandShadeBoxes(c: Rgb5)
    ensures IsSandShade(c) <==>
      (19 <= c.r <= 21 && 17 <= c.g <= 19 && 11 <= c.b <= 13) ||
      (21 <= c.r <= 23 && 19 <= c.g <= 21 && 13 <= c.b <= 15)
  {
  }

  /**
   * A position is on sand exactly when it lies in the quadrant's window and
   * the colour shown there is a sand shade; the gray check never overrides
   * a sand shade.
   */
  lemma OnSandIffSandShade(x: int, y: int, quad: int, v: Vram)
    requires 0 <= quad < 9 && ValidVram(v)
    ensures var (lx, ly) := Local(x, y, quad);
      IsOnSand(x, y, quad, v) <==>
        InWindow(lx, ly) && IsSandShade(Channels(PixelColor(v, lx, ly)))
  {
    var (lx, ly) := Local(x, y, quad);
    if InWindow(lx, ly) {
      GrayAndSandAreApart(Channels(PixelColor(v, lx, ly)));
    }
  }

  /** The window starts at the quadrant's own corner and spans two quadrants each way. */
  lemma WindowOfQuadrant(x: int, y: int, quad: int)
    requires 0 <= quad < 9
    ensures var (lx, ly) := Local(x, y, quad);
      InWindow(lx, ly) <==>
        (quad % 3) * 256 <= x < (quad % 3) * 256 + 512 && (quad / 3) * 256 <= y < (quad / 3) * 256 + 512
  {
  }
}
