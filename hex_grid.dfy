/** The tactical map's hexagonal grid: which tiles are land, the region and
    the terrain of each, and the random roughening of the terrain. */
module HexGrid {
  import opened Basics

  datatype Terrain = Land | Water | Mountain | Forest | Snow | Castle

  /** A tile by its axial coordinates; its pixel position is not modelled. */
  datatype HexTile = HexTile(q: int, r: int, kind: Terrain, region: string)

  /** The two Math.random() draws of one tile: the mountain roll, drawn
      unless the tile is water, and the forest roll, drawn while it is still
      plain land. */
  datatype TileRolls = TileRolls(mountain: real, forest: real)

  const MapWidth := 15
  const MapHeight := 40

  /** The rough shape of Westeros: columns 4..11, rows 3..37. */
  predicate IsLand(q: int, r: int) {
    3 < q < 12 && 2 < r < 38
  }

  /** The terrain and region before the random variation. */
  function BaseTerrain(q: int, r: int): Terrain {
    if !IsLand(q, r) then Water
    else if r < 10 then Snow
    else if r < 15 then Forest
    else if r < 20 then Mountain
    else Land
  }

  function Region(q: int, r: int): string {
    if !IsLand(q, r) then "Narrow Sea"
    else if r < 10 then "North"
    else if r < 15 then "Riverlands"
    else if r < 20 then "Westerlands"
    else if r < 28 then "Reach"
    else "Dorne"
  }

  /** Random variation: any land tile may rise into mountains (roll above
      0.85), and plain land that did not may grow into forest (above 0.7). */
  function Vary(kind: Terrain, rolls: TileRolls): Terrain {
    var k := if kind != Water && rolls.mountain > 0.85 then Mountain else kind;
    if k == Land && rolls.forest > 0.7 then Forest else k
  }

  /** The tile generated at (q, r): water exactly off the coast, where it is
      always the Narrow Sea; on land the region follows the row and the
      terrain is the row's own or a rougher one; no castle is ever generated. */
  function Tile(q: int, r: int, rolls: TileRolls): (t: HexTile)
    ensures t.q == q && t.r == r && t.region == Region(q, r)
    ensures t.kind == Water <==> !IsLand(q, r)
    ensures t.kind != Castle
    ensures IsLand(q, r) ==> t.kind in {Snow, Forest, Mountain, Land}
    ensures IsLand(q, r) && r < 10 ==> t.kind in {Snow, Mountain}
    ensures IsLand(q, r) && 10 <= r < 15 ==> t.kind in {Forest, Mountain}
    ensures IsLand(q, r) && 15 <= r < 20 ==> t.kind == Mountain
    ensures IsLand(q, r) && 20 <= r ==> t.kind in {Land, Forest, Mountain}
    ensures t.kind == Mountain <==> BaseTerrain(q, r) == Mountain || (IsLand(q, r) && rolls.mountain > 0.85)
  {
    HexTile(q, r, Vary(BaseTerrain(q, r), rolls), Region(q, r))
  }

  predicate ValidRolls(width: nat, height: nat, rolls: seq<seq<TileRolls>>) {
    |rolls| == height && forall r :: 0 <= r < height ==> |rolls[r]| == width
  }

  /** The first `q` tiles of row `r`. */
  function Row(r: nat, q: nat, rolls: seq<TileRolls>): (tiles: seq<HexTile>)
    requires q <= |rolls|
    ensures |tiles| == q
  {
    if q == 0 then [] else Row(r, q - 1, rolls) + [Tile(q - 1, r, rolls[q - 1])]
  }

  /** The first `r` rows of the grid, row by row and in each row left to right. */
  function Grid(width: nat, r: nat, rolls: seq<seq<TileRolls>>): seq<HexTile>
    requires r <= |rolls| && forall i :: 0 <= i < |rolls| ==> |rolls[i]| == width
  {
    if r == 0 then [] else Grid(width, r - 1, rolls) + Row(r - 1, width, rolls[r - 1])
  }

  lemma {:induction false} RowTiles(r: nat, q: nat, rolls: seq<TileRolls>)
    requires q <= |rolls|
    ensures forall i :: 0 <= i < q ==> Row(r, q, rolls)[i] == Tile(i, r, rolls[i])
  {
    if q > 0 {
      RowTiles(r, q - 1, rolls);
    }
  }

  lemma {:induction false} GridLength(width: nat, h: nat, rolls: seq<seq<TileRolls>>)
    requires h <= |rolls| && forall i :: 0 <= i < |rolls| ==> |rolls[i]| == width
    ensures |Grid(width, h, rolls)| == h * width
  {
    if h > 0 {
      GridLength(width, h - 1, rolls);
      assert (h - 1) * width + width == h * width;
    }
  }

  /** Row `r` starts after the first `r` rows: the tile `q` places further
      on is the one generated at (q, r) from that tile's own rolls. */
  lemma {:induction false} GridAt(width: nat, h: nat, rolls: seq<seq<TileRolls>>, r: nat, q: nat)
    requires h <= |rolls| && forall i :: 0 <= i < |rolls| ==> |rolls[i]| == width
    requires r < h && q < width
    ensures |Grid(width, r, rolls)| + q < |Grid(width, h, rolls)|
    ensures Grid(width, h, rolls)[|Grid(width, r, rolls)| + q] == Tile(q, r, rolls[r][q])
  {
    var prev := Grid(width, h - 1, rolls);
    var row := Row(h - 1, width, rolls[h - 1]);
    assert Grid(width, h, rolls) == prev + row;
    var idx := |Grid(width, r, rolls)| + q;
    if r < h - 1 {
      GridAt(width, h - 1, rolls, r, q);
      assert Grid(width, h, rolls)[idx] == prev[idx];
    } else {
      RowTiles(h - 1, width, rolls[h - 1]);
      assert Grid(width, h, rolls)[idx] == row[q];
    }
  }

  /** The grid has `width` tiles per row, and the tile at position
      r * width + q is the one generated at (q, r). */
  lemma GridTiles(width: nat, h: nat, rolls: seq<seq<TileRolls>>, r: nat, q: nat)
    requires h <= |rolls| && forall i :: 0 <= i < |rolls| ==> |rolls[i]| == width
    requires r < h && q < width
    ensures |Grid(width, h, rolls)| == h * width
    ensures r * width + q < h * width && Grid(width, h, rolls)[r * width + q] == Tile(q, r, rolls[r][q])
  {
    GridLength(width, h, rolls);
    GridLength(width, r, rolls);
    GridAt(width, h, rolls, r, q);
  }

  /** One tile of the loop: the base terrain and region by position, then
      the mountain roll and the forest roll. */
  method GenerateTile(q: int, r: int, rolls: TileRolls) returns (tile: HexTile)
    ensures tile == Tile(q, r, rolls)
  {
    var kind := Water;
    var region := "Narrow Sea";
    if 3 < q < 12 && 2 < r < 38 {
      if r < 10 {
        kind, region := Snow, "North";
      } else if r < 15 {
        kind, region := Forest, "Riverlands";
      } else if r < 20 {
        kind, region := Mountain, "Westerlands";
      } else if r < 28 {
        kind, region := Land, "Reach";
      } else {
        kind, region := Land, "Dorne";
      }
    }
    if kind != Water && rolls.mountain > 0.85 {
      kind := Mountain;
    }
    if kind == Land && rolls.forest > 0.7 {
      kind := Forest;
    }
    tile := HexTile(q, r, kind, region);
  }

  /** One row of the grid, left to right. */
  method GenerateRow(width: nat, r: nat, rolls: seq<TileRolls>) returns (row: seq<HexTile>)
    requires |rolls| == width
    ensures row == Row(r, width, rolls)
  {
    row := [];
    var q := 0;
    while q < width
      invariant 0 <= q <= width
      invariant row == Row(r, q, rolls)
    {
      var tile := GenerateTile(q, r, rolls[q]);
      row := row + [tile];
      q := q + 1;
    }
  }

  /** generateHexGrid(width, height): rows top to bottom, each left to right. */
  method GenerateHexGrid(width: nat, height: nat, rolls: seq<seq<TileRolls>>) returns (tiles: seq<HexTile>)
    requires ValidRolls(width, height, rolls)
    ensures tiles == Grid(width, height, rolls)
  {
    tiles := [];
    var r := 0;
    while r < height
      invariant 0 <= r <= height
      invariant tiles == Grid(width, r, rolls)
    {
      var row := GenerateRow(width, r, rolls[r]);
      tiles := tiles + row;
      r := r + 1;
    }
  }

  /** The map the page draws: 15 columns by 40 rows, 600 tiles. */
  lemma MapSize(rolls: seq<seq<TileRolls>>)
    requires ValidRolls(MapWidth, MapHeight, rolls)
    ensures |Grid(MapWidth, MapHeight, rolls)| == 600
  {
    GridLength(MapWidth, MapHeight, rolls);
  }
}
