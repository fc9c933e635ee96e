/**
 * The decoding side of draw_board.py: orientations 0..3, the letter map that
 * reads a solution file, and the grid of (tile, orientation) cells that
 * `Board.__init__` fills from a board file and a solution file, here given as
 * their lines in memory.
 */
module DrawBoard {
  import opened Wrappers
  import opened Text

  /** `ORIENTATIONS = range(4)`; NORTH, EAST, SOUTH, WEST are 0, 1, 2, 3. */
  const North: int := 0
  const East: int := 1
  const South: int := 2
  const West: int := 3
  const OrientationCount: int := 4

  /**
   * `SIZE = 322, 460`: the pixel size of the picture. `Board.__init__` also
   * uses it for the size of its grid, so the grid is far larger than a board.
   */
  const Width: nat := 322
  const Height: nat := 460

  /** `ORIENTATION_LETTER_MAP`. */
  const OrientationLetterMap: map<char, int> := map['N' := North, 'E' := East, 'S' := South, 'W' := West]

  /** The letter map decodes exactly N, E, S, W, and to four distinct orientations. */
  lemma LetterMapDecodes()
    ensures OrientationLetterMap.Keys == {'N', 'E', 'S', 'W'}
    ensures forall c :: c in OrientationLetterMap ==> 0 <= OrientationLetterMap[c] < OrientationCount
    ensures forall c, d :: c in OrientationLetterMap && d in OrientationLetterMap && c != d ==>
              OrientationLetterMap[c] != OrientationLetterMap[d]
  {
  }

  /**
   * `get_opposite_orientation`: two quarter turns. Python's `%` by a positive
   * number is never negative, as Dafny's is, so no case is needed for
   * negative input.
   */
  function GetOppositeOrientation(orientation: int): (r: int)
    ensures 0 <= r < OrientationCount
    ensures r != orientation
    ensures (r - orientation) % OrientationCount == 2
  {
    (orientation + 2) % OrientationCount
  }

  /** Taking the opposite twice gives back every orientation 0..3. */
  lemma OppositeInvolution(orientation: int)
    requires 0 <= orientation < OrientationCount
    ensures GetOppositeOrientation(GetOppositeOrientation(orientation)) == orientation
  {
  }

  /** `Tile`: a tile letter and an orientation, `None` until a solution sets it. */
  datatype Tile = Tile(tile: char, orientation: Option<int>)

  /** What `Tile()` builds: a blank tile with no orientation. */
  const BlankTile: Tile := Tile('_', None)

  /** The tile letter cell (x, y) holds once the board lines are loaded. */
  function LoadedTile(lines: seq<string>, x: nat, y: nat): (r: char) {
    if y < |lines| && x < |Strip(lines[y], Ascii)| then Strip(lines[y], Ascii)[x] else '_'
  }

  /**
   * The orientation of `cell` after the solution lines are loaded into
   * position (x, y): only a letter of the map changes it.
   */
  function LoadedOrientation(cell: Tile, lines: seq<string>, x: nat, y: nat): (t: Tile)
    ensures t.tile == cell.tile
    ensures t.orientation != cell.orientation ==>
              y < |lines| && x < |Strip(lines[y], Ascii)| && Strip(lines[y], Ascii)[x] in OrientationLetterMap
    ensures t.orientation.Some? && t.orientation != cell.orientation ==> 0 <= t.orientation.value < OrientationCount
    ensures y < |lines| && x < |Strip(lines[y], Ascii)| && Strip(lines[y], Ascii)[x] in OrientationLetterMap ==>
              t.orientation == Some(OrientationLetterMap[Strip(lines[y], Ascii)[x]])
  {
    if y < |lines| then OrientedBy(cell, Strip(lines[y], Ascii), x) else cell
  }

  /** `cell` after character x of a stripped solution line is read into it. */
  function OrientedBy(cell: Tile, line: string, x: nat): (r: Tile) {
    if x < |line| && line[x] in OrientationLetterMap
    then cell.(orientation := Some(OrientationLetterMap[line[x]]))
    else cell
  }

  /** Every stripped line fits the grid: line y indexes the inner lists, so y < WIDTH and x < HEIGHT. */
  predicate FitsGrid(lines: seq<string>) {
    forall y :: 0 <= y < |lines| ==> |Strip(lines[y], Ascii)| <= (if y < Width then Height else 0)
  }

  class Board {
    /** `self.data`, indexed `data[x][y]`: HEIGHT outer lists of WIDTH cells. */
    const data: array2<Tile>

    /**
     * `Board.__init__`. A line too long or too many lines of characters
     * would index past the grid, which raises IndexError in Python: callers
     * pass lines that fit.
     */
    constructor (boardFile: seq<string>, solutionFile: seq<string>)
      requires FitsGrid(boardFile) && FitsGrid(solutionFile)
      ensures fresh(data) && data.Length0 == Height && data.Length1 == Width
      ensures forall x, y :: 0 <= x < Height && 0 <= y < Width ==>
                data[x, y] == LoadedOrientation(Tile(LoadedTile(boardFile, x, y), None), solutionFile, x, y)
    {
      data := new Tile[Height, Width]((x, y) => BlankTile);
      new;
      LoadTiles(boardFile);
      LoadOrientations(solutionFile);
    }

    /** `__getitem__((x, y))`. */
    function Get(x: nat, y: nat): (r: Tile)
      reads data
      requires x < data.Length0 && y < data.Length1
    {
      data[x, y]
    }

    /** `__setitem__((x, y), value)`: only that cell changes, and reading it back gives `value`. */
    method Set(x: nat, y: nat, value: Tile)
      requires x < data.Length0 && y < data.Length1
      modifies data
      ensures Get(x, y) == value
      ensures forall i, j :: 0 <= i < data.Length0 && 0 <= j < data.Length1 && (i, j) != (x, y) ==>
                data[i, j] == old(data[i, j])
    {
      data[x, y] := value;
    }

    /**
     * The first loop of `Board.__init__`: character x of stripped line y
     * becomes the tile letter of cell (x, y); other cells keep theirs.
     */
    method LoadTiles(lines: seq<string>)
      requires data.Length0 == Height && data.Length1 == Width
      requires FitsGrid(lines)
      modifies data
      ensures forall x, y :: 0 <= x < Height && 0 <= y < Width ==>
                data[x, y] == if y < |lines| && x < |Strip(lines[y], Ascii)|
                              then old(data[x, y]).(tile := LoadedTile(lines, x, y))
                              else old(data[x, y])
    {
      var y := 0;
      while y < |lines|
        invariant 0 <= y <= |lines|
        invariant forall i, j :: 0 <= i < Height && 0 <= j < Width ==>
                    data[i, j] == if j < y && i < |Strip(lines[j], Ascii)|
                                  then old(data[i, j]).(tile := LoadedTile(lines, i, j))
                                  else old(data[i, j])
      {
        LoadTileRow(lines, y);
        y := y + 1;
      }
    }

    /** The inner loop of the first loop of `Board.__init__`, for line y. */
    method LoadTileRow(lines: seq<string>, y: nat)
      requires data.Length0 == Height && data.Length1 == Width
      requires FitsGrid(lines) && y < |lines|
      modifies data
      ensures forall i, j :: 0 <= i < Height && 0 <= j < Width ==>
                data[i, j] == if j == y && i < |Strip(lines[y], Ascii)|
                              then old(data[i, j]).(tile := LoadedTile(lines, i, j))
                              else old(data[i, j])
    {
      var line := Strip(lines[y], Ascii);
      var x := 0;
      while x < |line|
        invariant 0 <= x <= |line|
        invariant forall i, j :: 0 <= i < Height && 0 <= j < Width ==>
                    data[i, j] == if j == y && i < x
                                  then old(data[i, j]).(tile := LoadedTile(lines, i, j))
                                  else old(data[i, j])
      {
        var cell := Get(x, y);
        Set(x, y, cell.(tile := line[x]));
        x := x + 1;
      }
    }

    /**
     * The second loop of `Board.__init__`: a character of the letter map at
     * (x, y) sets that cell's orientation; any other character, the solver's
     * `_` among them, leaves the cell as it was.
     */
    method LoadOrientations(lines: seq<string>)
      requires data.Length0 == Height && data.Length1 == Width
      requires FitsGrid(lines)
      modifies data
      ensures forall x, y :: 0 <= x < Height && 0 <= y < Width ==>
                data[x, y] == LoadedOrientation(old(data[x, y]), lines, x, y)
    {
      var y := 0;
      while y < |lines|
        invariant 0 <= y <= |lines|
        invariant forall i, j :: 0 <= i < Height && 0 <= j < Width ==>
                    data[i, j] == if j < y then LoadedOrientation(old(data[i, j]), lines, i, j) else old(data[i, j])
      {
        LoadOrientationRow(lines, y);
        y := y + 1;
      }
    }

    /** The inner loop of the second loop of `Board.__init__`, for line y. */
    method LoadOrientationRow(lines: seq<string>, y: nat)
      requires data.Length0 == Height && data.Length1 == Width
      requires FitsGrid(lines) && y < |lines|
      modifies data
      ensures forall i, j :: 0 <= i < Height && 0 <= j < Width ==>
                data[i, j] == if j == y then LoadedOrientation(old(data[i, j]), lines, i, j) else old(data[i, j])
    {
      var line := Strip(lines[y], Ascii);
      var x := 0;
      while x < |line|
        invariant 0 <= x <= |line|
        invariant forall i, j :: 0 <= i < Height && 0 <= j < Width ==>
                    data[i, j] == if j == y && i < x
                                  then OrientedBy(old(data[i, j]), line, i)
                                  else old(data[i, j])
      {
        var character := line[x];
        if character in OrientationLetterMap {
          var cell := Get(x, y);
          Set(x, y, cell.(orientation := Some(OrientationLetterMap[character])));
        }
        x := x + 1;
      }
    }
  }
}
