# Pipe-puzzle solver, modelled in Dafny

This project models the solver engine of a pipe puzzle (`solve_board.py`) and
the decoding half of its drawing script (`draw_board.py`). A board is a fixed
7 × 10 grid of tiles: gas tanks (`1`, `2`, `3`), pipes (`I`, `L`, `T`),
houses (`H`) and blanks (`_`). Every tile faces one orientation, 1 to 4,
written N, E, S, W. The solver rotates tiles so that gas can flow from a
tank through pipes to a house. When it has to rotate a pair into place, it locks both tiles; a pair that
already faces each other is accepted as it is, without locking. It spreads
outward one layer at a time from the first gas tank.

Files:

- `solve_board.dfy`, module `SolveBoard`: the orientation arithmetic; class
  `MyTile` (kind tests, the four neighbour lookups, `tiles_are_connected`,
  `rotate`, `_connect_tiles`, `connect`, `get_readable_orientation`); class
  `MyBoard` (grid construction, `get_tile`, `find_starting_point`,
  `find_path`, `solve`, the text of `write_output_board_to_file`). It ends
  with the round trip from the solver's output to `draw_board.py`'s decoding.
- `draw_board.dfy`, module `DrawBoard`: `get_opposite_orientation`,
  `ORIENTATION_LETTER_MAP`, the `Tile` cell, and class `Board` with its grid
  fill, `__getitem__` and `__setitem__`.
- `text.dfy`, module `Text`: `str.strip()`, iterating over a file's lines,
  and joining rows with newlines. These stand in for the file reads and
  writes, which the model takes as strings in memory.
- `wrappers.dfy`, module `Wrappers`: `Option`, standing for Python's `None`.

How the code is modelled:

- Tiles and boards are classes, because the solver changes tiles in place.
  A tile's position, kind and board never change, so they are `const`.
  Orientation, `locked` and `connected_neighbors` are fields that the
  methods update. Tiles are compared by identity, as in Python. A tile is
  identified by its position: `MyBoard.Valid` ties `board[y][x]` back to
  `(x, y)`.
- The changing part of a board is also described as a value: a
  `BoardState` maps every tile to its orientation, lock and connected
  neighbours, and `MyBoard.Snapshot` reads it off the heap. The search is
  specified by pure functions over such states: `ConnectOutcome` for
  `connect`, `VisitOutcome` and `VisitFrom` for the inner loop of
  `find_path`, `ExpandFrom` for one layer, and `SearchFrom` for the whole
  recursion. These functions are total: a state lacking a tile leaves that
  step a no-op, a case the board never produces.
- Each method that changes the board ensures that its outputs and the new
  snapshot are exactly what the matching function gives for the old
  snapshot. What the search promises is proved as lemmas about those
  functions: locks hold and `connected_neighbors` only grows (`MovesOn`),
  what is appended to the next layer, where the search stops and what each
  outcome means. Through the method contracts, the lemmas apply to the
  board.
- `rotate`, the rotation loop of `_connect_tiles`, the two loops inside
  `find_path`, the grid fills of both scripts and the output writer are
  methods with loops. Each is proved against a pure definition: `Rotated`,
  `AlignRounds`, `VisitFrom`, `ExpandFrom`, `OutputRows`, `IsNewTile` and
  `PlacedAs` (the solver's grid), and `LoadedTile` and `LoadedOrientation`
  (the drawing script's grid). `find_path` itself has no loop: it recurses, and
  its method is tied to `SearchFrom` in the same way.
- The solver reads its lines with `io.open`, so `strip()` removes unicode
  whitespace. `draw_board.py` reads with `open`, so its `strip()` removes
  only ASCII whitespace. `Text.Strip` takes the kind as a parameter.
- The east and south lookups test `x == width` and `y == height`, not the
  last column and row. So from column 6 or row 9 they index a dictionary
  key that does not exist. They return `None` there, standing for the
  KeyError Python raises. `get_neighbors` fails the same way. `find_path`
  reports it as the outcome `KeyError(tile)`. `tiles_are_connected` requires
  that the one lookup it makes stays on the grid.
- In Python, `find_path` and `solve` return `None` whatever happens. The
  model returns where the search stopped (`PathOutcome`), so that the
  contracts can say what each ending means. Python shows the same endings
  only through the board's state or an exception.
- `find_path` has no visited set: two connected tiles can re-add each other
  forever. The model gives it a `fuel` bound on its recursion depth. In
  Python 2, that recursion ends in a RuntimeError (maximum recursion depth
  exceeded).

## Behaviour of the code

The model follows these facts about the code:

- `tiles_are_connected` is a single-exit rule, with no per-kind endpoint
  sets. The tile must face its neighbour, and the neighbour must face back.
- `_connect_tiles` keeps no best candidate. A failed search leaves both
  orientations exactly as they were: four neighbour turns make a full
  turn, and each trial turn of the tile is undone by `rotate(3)`. Success
  locks both tiles, whatever their kinds.
- `solve` starts from the first gas tank in row-major order only.
- Tiles carry no visited flag.
- `find_path` returns as soon as a house connects.
- The grid wraps north and west but not east and south (see above).

## Model

| member | source | states |
|---|---|---|
| SolveBoard.TileKinds | solve_board.py:10 | Each letter of `TILE_TYPES` passes exactly one of the kind tests (empty, house, pipe, gas tank). Any other letter passes none |
| SolveBoard.MyTile.IsEmpty | solve_board.py:39-40 | True exactly for the letter `_`. With the other kind tests it splits `TILE_TYPES` (see `TileKinds`) |
| SolveBoard.MyTile.IsGasTank | solve_board.py:43-44 | True exactly for `1`, `2` and `3` |
| SolveBoard.MyTile.IsPipe | solve_board.py:47-48 | True exactly for `I`, `L` and `T` |
| SolveBoard.MyTile.IsHouse | solve_board.py:115-116 | True exactly for `H` |
| SolveBoard.MyTile.IsLocked | solve_board.py:51-52 | The tile's lock flag. A locked tile never turns (see `AlignLocked` and `ConnectKeeps`) |
| SolveBoard.MyTile.CanRotateNeighborToConnect | solve_board.py:67-70 | False exactly when the neighbour is locked. Then `_connect_tiles` turns nothing (see `ConnectTiles`) |
| SolveBoard.Rotated | solve_board.py:162-168 | Turning a tile whose orientation is in 1..4 any number of steps keeps it in 1..4 |
| SolveBoard.RotatedModulo | solve_board.py:162-168 | `n` clockwise steps from orientation `o` give `(o - 1 + n) % 4 + 1`: the cycle is 1→2→3→4→1 |
| SolveBoard.RotateFullTurn | solve_board.py:86 | Four steps give back the starting orientation, and `rotate(3)` after `rotate()` undoes it |
| SolveBoard.RotationsBetween | solve_board.py:76-80 | Fewer than four neighbour turns reach any orientation, so the four-round loop tries them all |
| SolveBoard.OppositePairs | solve_board.py:55-64 | The pairs the connection test accepts (1–3, 2–4) are exactly two quarter turns apart. The relation is its own inverse and agrees with `get_opposite_orientation` shifted by one |
| SolveBoard.LetterRoundTrip | solve_board.py:12-14 | `TILE_ORIENTATIONS_MAP` has a letter for each orientation 1..4, and that letter decodes, in the drawing script's letter map, to `o - 1` |
| SolveBoard.MyTile.constructor | solve_board.py:17-24 | A new tile has its position, kind and board, orientation 1, is unlocked and has no connected neighbours |
| SolveBoard.MyTile.ReadableOrientation | solve_board.py:31-36 | The letter is `_` exactly for an empty tile. For any other tile it is a letter that decodes back to orientation − 1 |
| SolveBoard.MyTile.NorthernNeighbor | solve_board.py:119-125 | The tile at the same column, row `(y + height - 1) % height`: row 0 wraps to the last row |
| SolveBoard.MyTile.EasternNeighbor | solve_board.py:128-134 | The tile at column x + 1 in the same row when there is one. On the last column the lookup fails, because the wrap test compares with the width |
| SolveBoard.MyTile.SouthernNeighbor | solve_board.py:137-143 | The tile at row y + 1 in the same column when there is one. On the last row the lookup fails |
| SolveBoard.MyTile.WesternNeighbor | solve_board.py:146-152 | The tile at column `(x + width - 1) % width`, same row: column 0 wraps to the last column |
| SolveBoard.MyTile.GetNeighbors | solve_board.py:155-159 | The four lookups succeed exactly for a tile off the last column and row. Neighbour i is one step in orientation i + 1 and is never the tile itself |
| SolveBoard.MyTile.TilesAreConnected | solve_board.py:55-64 | Connected exactly when the tile's orientation is 1..4, the neighbour is the tile one step away in that orientation, and the neighbour's orientation is the opposite one |
| SolveBoard.ConnectedToAtMostOne | solve_board.py:55-64 | A tile is connected to at most one tile |
| SolveBoard.ConnectedSymmetry | solve_board.py:55-64 | Away from the north/west wrap, the connection holds both ways. Across the wrap the reverse check would run off the grid, so the relation is not symmetric there |
| SolveBoard.MyTile.Rotate | solve_board.py:162-168 | The new orientation is the old one turned `num_rotations` clockwise steps |
| SolveBoard.MyTile.AlignWith | solve_board.py:75-86 | The two orientations end as `AlignRounds` gives for the old ones. So (by `AlignOutcome`) the pair ends connected or both orientations are restored. The tile turns at most one step, and only when unlocked. A neighbour the tile already faces, or an unlocked tile faces one step on, always ends connected |
| SolveBoard.AlignOutcome | solve_board.py:76-86 | The rounds end connected or with both orientations restored. The tile turns at most one step clockwise, and only when unlocked. A neighbour the tile faces ends connected with the tile unturned. A neighbour an unlocked tile faces one step on ends connected with the tile turned |
| SolveBoard.AlignRestores | solve_board.py:76-86 | From any round on, the rounds end with the pair connected, or with the tile at its start and the neighbour a full turn on |
| SolveBoard.AlignFacing | solve_board.py:76-80 | When the tile faces the neighbour, the loop breaks at the round where the neighbour faces back, with the tile unturned |
| SolveBoard.AlignClockwise | solve_board.py:80-84 | When an unlocked tile faces the neighbour one step on, the loop breaks after that trial turn, at the round where the neighbour faces back |
| SolveBoard.AlignLocked | solve_board.py:81-86 | A locked tile never turns during the rounds |
| SolveBoard.MyTile.ConnectTiles | solve_board.py:67-92 | Returns whether the pair ends connected. Success locks both tiles. Failure restores both orientations and leaves the locks. A locked tile keeps its orientation. A locked neighbour means no rotation, and the current connectivity is returned. The tile ends at its orientation or one step clockwise. An unlocked neighbour that the tile already faces, or that an unlocked tile faces one step on, always ends connected |
| SolveBoard.MyTile.Connect | solve_board.py:96-112 | Matches `ConnectOutcome`. An empty neighbour gives false. An already-connected pair gives true with no change. Otherwise success needs a tank or pipe towards a pipe or house. Any false result changes nothing. Locked tiles keep their orientation. A searched pair that the tile faces, or faces one step on when unlocked, always connects |
| SolveBoard.ConnectKeeps | solve_board.py:96-112 | For any pair state: `connect` keeps a locked tile locked at its orientation. It returns true exactly when the neighbour is not empty and the pair it leaves stands connected. From orientations in range it keeps them in range, and a false result leaves the pair as it was |
| SolveBoard.MyBoard.constructor | solve_board.py:174-193 | Cell (x, y) of the 7 × 10 grid is a fresh tile holding character x of stripped line y, orientation 1, unlocked |
| SolveBoard.MyBoard.NewRows | solve_board.py:188-193 | Ten rows of seven fresh tiles. Tile (x, y) holds character x of stripped line y, faces north, is unlocked and has no connected neighbours |
| SolveBoard.MyBoard.NewBoardConsistent | solve_board.py:174-193 | A board of such new tiles satisfies the invariant every solver step keeps |
| SolveBoard.MyBoard.NewRow | solve_board.py:189-192 | One fresh tile per character of the line, at its column |
| SolveBoard.MyBoard.GetTile | solve_board.py:196-197 | The tile at (x, y) is on the board at that position |
| SolveBoard.MyBoard.FindStartingPoint | solve_board.py:200-204 | Returns the first gas tank in row-major order (`StartingPoint`), or `None` exactly when the board has no gas tank |
| SolveBoard.MyBoard.StartingPointUnique | solve_board.py:200-204 | At most one tile is a gas tank with no gas tank before it, so the first gas tank is well defined |
| SolveBoard.MyBoard.NeighborsAgree | solve_board.py:155-159 | On the board, a tile's four lookups are `NeighborsIn` of the grid at its position, and the neighbours they find are tiles of the board |
| SolveBoard.NeighborsApart | solve_board.py:155-159 | No tile is among its own four neighbours |
| SolveBoard.MyBoard.ConnectOnBoard | solve_board.py:212 | `connect` inside the search: the result and the pair's new orientations and locks are what `ConnectOutcome` gives for the pair as it stood, and no other tile changes. True exactly when the neighbour is not empty and the pair now stands connected |
| SolveBoard.MyBoard.RecordNeighbor | solve_board.py:213-214 | The neighbour is appended to `connected_neighbors` exactly when it is not there yet, and nothing else changes |
| SolveBoard.MyBoard.VisitNeighbor | solve_board.py:212-221 | One pass of the inner loop leaves the board and the next layer that `VisitOutcome` gives for the old board. It reports a house exactly when one connected. That house stands connected to the tile and is listed among its `connected_neighbors` |
| SolveBoard.VisitKeeps | solve_board.py:212-221 | One pass keeps every locked tile locked at its orientation, only appends to `connected_neighbors`, and keeps orientations in range with no duplicate neighbours |
| SolveBoard.VisitMeaning | solve_board.py:212-221 | `connect` succeeded exactly when the neighbour is not empty and the pair stands connected afterwards. Then the neighbour is a connected neighbour of the tile. A house ends the layer and adds nothing. Any other connected neighbour joins the next layer unless already there. A failed pass changes nothing |
| SolveBoard.VisitNext | solve_board.py:220-221 | The next layer after one pass is unchanged, or has the neighbour appended once. That neighbour is neither empty nor a house and is now a connected neighbour of the tile |
| SolveBoard.MyBoard.VisitNeighbors | solve_board.py:210-221 | The inner loop over the four neighbours leaves the board, next layer and reported house that `VisitFrom` gives for the old board |
| SolveBoard.VisitFromKeeps | solve_board.py:211-221 | The inner loop keeps locks and orientations of locked tiles, only appends to `connected_neighbors`, and keeps the state consistent |
| SolveBoard.VisitFromNext | solve_board.py:211-221 | The next layer keeps its old prefix and gains no duplicates. Each new tile is one of the remaining neighbours, neither empty nor a house, and a connected neighbour of the tile |
| SolveBoard.VisitFromHouse | solve_board.py:211-219 | A house that ends the inner loop is one of the neighbours, stands connected to the tile and is among its `connected_neighbors` |
| SolveBoard.VisitFromIdle | solve_board.py:211-221 | From a consistent board, an inner loop that connects nothing changes nothing |
| SolveBoard.MyBoard.ExpandLayer | solve_board.py:208-221 | One layer leaves the board, next layer and stop that `ExpandFrom` gives for the old board |
| SolveBoard.ExpandKeeps | solve_board.py:208-221 | A layer keeps locks, only appends to `connected_neighbors`, and keeps the state consistent |
| SolveBoard.ExpandNext | solve_board.py:208-221 | The next layer has no duplicates. Each of its tiles is neither empty nor a house, and is a connected neighbour of a tile of the layer |
| SolveBoard.ExpandStops | solve_board.py:209-219 | A layer stops only with KeyError for one of its tiles on the last column or row, or with a house that is a neighbour of one of its tiles and now stands connected to it |
| SolveBoard.ExpandIdle | solve_board.py:208-221 | From a consistent board, a layer that stops nowhere and finds no tile to continue with changes nothing |
| SolveBoard.MyBoard.FindPath | solve_board.py:207-223 | The search leaves the board and the outcome that `SearchFrom` gives for the old board |
| SolveBoard.SearchKeeps | solve_board.py:207-223 | Across all layers, locked tiles stay locked and never turn, `connected_neighbors` only grows, and orientations stay in range with no duplicate neighbours |
| SolveBoard.SearchStops | solve_board.py:207-223 | A success names a tile and a house among its neighbours that stands connected to it and is listed in its `connected_neighbors`. KeyError names a tile on the last column or row |
| SolveBoard.SearchExhausted | solve_board.py:222-223 | `Exhausted` means the last layer connected nothing: expanding it again on the final board changes nothing, continues with nothing and does not stop. That layer is non-empty when the first one is |
| SolveBoard.MyBoard.HouseOnBoard | solve_board.py:217-219 | A house the search reached in the snapshot is, on the board itself, connected to an interior tile that lists it |
| SolveBoard.MyBoard.Solve | solve_board.py:226-229 | With no gas tank: `None`, and nothing changes. Otherwise the board and the outcome are those of `SearchFrom` from the first gas tank. A reported house is connected on the board to the interior tile that reached it, which lists it |
| SolveBoard.MyBoard.OutputRow | solve_board.py:236-239 | The letters collected for row y are row y of the output |
| SolveBoard.MyBoard.OutputBoardText | solve_board.py:232-243 | The text is the rows of letters from `get_readable_orientation`, joined by newlines, with none after the last row |
| SolveBoard.OutputRowsAreLetters | solve_board.py:238 | Every output row consists of N, E, S, W and `_` |
| SolveBoard.OutputRowsReadBack | solve_board.py:240-242 | Each line of the written text strips back to its row |
| SolveBoard.OutputRoundTrip | solve_board.py:232-243 | Loading the written text as a solution file gives every non-empty tile its orientation − 1. The cell of an empty tile is left unchanged |
| Text.TrimStart | solve_board.py:190 | The leading whitespace is dropped: the result is a suffix that is empty or starts with a non-space, and everything dropped is whitespace |
| Text.TrimEnd | draw_board.py:71 | The trailing whitespace is dropped: the result is a prefix that is empty or ends with a non-space, and everything dropped is whitespace |
| Text.Strip | draw_board.py:67 | The stripped line is a slice of the line that neither starts nor ends with whitespace, with only whitespace before and after it |
| Text.StripLine | solve_board.py:190 | A line without whitespace strips to itself, with or without its newline |
| Text.JoinLinesSnoc | solve_board.py:240-242 | Writing one more row after a newline extends the text at its end |
| Text.SplitJoinLines | draw_board.py:70 | Iterating over the joined rows yields each row with its newline, the last without one |
| DrawBoard.LetterMapDecodes | draw_board.py:17-21 | `ORIENTATION_LETTER_MAP` decodes exactly N, E, S, W, to four distinct orientations in 0..3 |
| DrawBoard.GetOppositeOrientation | draw_board.py:29-30 | The opposite lies in 0..3, differs from the input, and is two steps away modulo 4 |
| DrawBoard.OppositeInvolution | draw_board.py:29-30 | Taking the opposite twice gives back every orientation 0..3 |
| DrawBoard.LoadedOrientation | draw_board.py:72-74 | Only a character of the letter map at (x, y) changes a cell's orientation, to its decoded value. The tile letter never changes |
| DrawBoard.Board.constructor | draw_board.py:55-74 | Every cell starts as `Tile()`: letter `_`, no orientation. The grid is 460 × 322, indexed `data[x][y]`. Cell (x, y) ends with character x of stripped board line y, else `_`. Its orientation is decoded from the solution character there, else `None` |
| DrawBoard.Board.Get | draw_board.py:77-79 | `__getitem__((x, y))` reads `data[x][y]`. What `Set` stores there reads back (see `Set`) |
| DrawBoard.Board.Set | draw_board.py:82-84 | After `__setitem__((x, y), v)`, `__getitem__((x, y))` returns `v`, and no other cell changes |
| DrawBoard.Board.LoadTiles | draw_board.py:66-69 | Character x of stripped line y becomes the tile letter of cell (x, y). Other cells keep theirs |
| DrawBoard.Board.LoadTileRow | draw_board.py:67-69 | Only row y's cells change: character x of the stripped line becomes the tile letter of cell (x, y) |
| DrawBoard.Board.LoadOrientations | draw_board.py:70-74 | A letter-map character sets that cell's orientation. Any other character, such as the solver's `_`, leaves the cell unchanged |
| DrawBoard.Board.LoadOrientationRow | draw_board.py:71-74 | Only row y's cells change, each to its orientation decoded from the solution character there |

## Left out

- File I/O: the reads in `MyBoard.__init__` and `Board.__init__`, and the write in `write_output_board_to_file`. The model takes and returns the files' contents as strings.
- `solve_board()` and both `main` functions: command-line parsing, the hard-coded solution path, and output file naming. These are I/O glue.
- All image rendering: `make_image_map`, `draw_board`, `ORIENTATION_NAME_MAP`, `ON_OFF_MAP`, `TILE_SIZE`. This is a foreign imaging library with file output. `SIZE` is kept only because `Board.__init__` uses it as the grid size.
- `MyTile.__str__` is debug formatting. The `unicode` conversion in `get_readable_orientation` only changes the string type; a letter is a plain `char`.
- SolveBoard.MyBoard.constructor: requires every cell to be filled. The first ten lines must strip to exactly seven characters, and later lines to nothing. A missing cell stays `None` in Python. The first access to it raises AttributeError: in `find_starting_point` only when no gas tank comes before it, otherwise in `connect` or in the output writer, and within `solve` possibly never. A longer line adds dictionary keys beyond the grid, which the east lookup would then find; that is not modelled.
- SolveBoard.MyTile.constructor: takes no orientation argument, because every caller uses the default, 1.
- SolveBoard.MyTile.ConnectTiles: requires the neighbour to be another tile and the tile to be off the last column and row. Every call from `find_path` meets both, since `get_neighbors` has just succeeded. A direct call that would raise KeyError only on some rotations is not modelled.
- SolveBoard.MyTile.TilesAreConnected: requires `LookupSafe`: a tile facing east (or south) at a neighbour facing back must be off the last column (or row), so that its own east (or south) lookup stays on the grid. Every call from `find_path` meets it, since `get_neighbors` has just succeeded. The KeyError a direct call on an edge tile would raise is not modelled.
- SolveBoard.MyTile.Connect: has the same two requirements as `ConnectTiles`, for the same reason.
- SolveBoard.MyBoard.ConnectOnBoard: requires the tile to be off the last column and row, and the neighbour to be another tile of the board. `find_path` calls `connect` only after `get_neighbors` has succeeded, which guarantees both.
- SolveBoard.MyBoard.VisitNeighbor: has the same requirements as `ConnectOnBoard`, for the same reason.
- SolveBoard.MyBoard.VisitNeighbors: requires the neighbours to be tiles of the board other than the tile, as `get_neighbors` returns them.
- SolveBoard.MyBoard.FindPath: the recursion depth is bounded by `fuel`, standing for Python's recursion limit. Running out is reported as `RecursionLimit` rather than as Python's exact frame count.
- DrawBoard.Board.Set: cells are values, not shared `Tile` objects. Aliasing between cells that `__setitem__` could create is not modelled. Indices are natural numbers, so Python's negative indexing is not modelled.
- DrawBoard.Board.constructor: requires every line to fit the grid. A longer line, or a character line beyond the grid, raises IndexError in Python.
