/**
 * The pipe-puzzle solver of solve_board.py. A `MyTile` faces one of four
 * orientations; two tiles are connected when the first faces the second and
 * the second faces back. `connect` rotates a pair until they are connected
 * and then locks both; `MyBoard.find_path` spreads outward, layer by layer,
 * from the first gas tank of the board.
 */
module SolveBoard {
  import opened Wrappers
  import opened Text
  import DrawBoard

  /** `TILE_ORIENTATIONS`: 1, 2, 3, 4 stand for north, east, south, west. */
  predicate IsOrientation(o: int) {
    1 <= o <= 4
  }

  /** `TILE_TYPES`: blank, house, the three pipes and the three gas tanks. */
  const TileTypes: seq<char> := ['_', 'H', 'I', 'L', 'T', '1', '2', '3']

  /** `TILE_ORIENTATIONS_MAP`: the letter written for each orientation. */
  const TileOrientationsMap: map<int, char> := map[1 := 'N', 2 := 'E', 3 := 'S', 4 := 'W']

  /** One clockwise step of `rotate`, wrapping from 4 back to 1. */
  function Clockwise(o: int): (r: int) {
    if o < 4 then o + 1 else 1
  }

  /** The orientation after `n` clockwise steps. */
  function Rotated(o: int, n: nat): (r: int)
    ensures IsOrientation(o) ==> IsOrientation(r)
  {
    if n == 0 then o else Clockwise(Rotated(o, n - 1))
  }

  /** The orientation two quarter turns away: 1 and 3, 2 and 4 face each other. */
  function Opposite(o: int): (r: int) {
    Rotated(o, 2)
  }

  /** Rotating moves an orientation 1..4 forward by `n` steps, modulo four. */
  lemma {:induction false} RotatedModulo(o: int, n: nat)
    requires IsOrientation(o)
    ensures Rotated(o, n) == (o - 1 + n) % 4 + 1
  {
    if n > 0 {
      RotatedModulo(o, n - 1);
    }
  }

  /** Four steps are a full turn, and three steps undo one: `rotate(3)` after `rotate()` changes nothing. */
  lemma RotateFullTurn(o: int)
    requires IsOrientation(o)
    ensures Rotated(o, 4) == o
    ensures Rotated(Rotated(o, 1), 3) == o
  {
    assert Rotated(o, 4) == Clockwise(Clockwise(Clockwise(Clockwise(o))));
    assert Rotated(Rotated(o, 1), 3) == Clockwise(Clockwise(Clockwise(Clockwise(o))));
  }

  /** From any orientation, fewer than four steps reach any other. */
  lemma RotationsBetween(from: int, to: int) returns (k: nat)
    requires IsOrientation(from) && IsOrientation(to)
    ensures k < 4 && Rotated(from, k) == to
  {
    k := (to - from + 4) % 4;
    RotatedModulo(from, k);
  }

  /** Opposite orientations pair up: 1 with 3 and 2 with 4, and the relation is its own inverse. */
  lemma OppositePairs(o: int)
    requires IsOrientation(o)
    ensures Opposite(o) == (if o <= 2 then o + 2 else o - 2)
    ensures Opposite(Opposite(o)) == o
    ensures Opposite(o) - 1 == DrawBoard.GetOppositeOrientation(o - 1)
  {
    RotatedModulo(o, 2);
    RotatedModulo(Opposite(o), 2);
  }

  /** A letter written for orientation o decodes, in draw_board.py, to o - 1. */
  lemma LetterRoundTrip(o: int)
    requires IsOrientation(o)
    ensures o in TileOrientationsMap
    ensures TileOrientationsMap[o] in DrawBoard.OrientationLetterMap
    ensures DrawBoard.OrientationLetterMap[TileOrientationsMap[o]] == o - 1
  {
  }

  /**
   * The cell one step from (x, y) in orientation o as the four lookups
   * compute it: north and west wrap around the grid, east and south step
   * past it.
   */
  function Step(x: int, y: int, o: int, width: int, height: int): (r: (int, int))
    requires width > 0 && height > 0
  {
    if o == 1 then (x, (y + height - 1) % height)
    else if o == 2 then (x + 1, y)
    else if o == 3 then (x, y + 1)
    else ((x + width - 1) % width, y)
  }

  class MyTile {
    const x: nat
    const y: nat
    const tileType: char
    const board: MyBoard
    var orientation: int
    var locked: bool
    var connectedNeighbors: seq<MyTile>

    /** `MyTile(x, y, tile_type, board)`, with the default orientation 1. */
    constructor (x: nat, y: nat, tileType: char, board: MyBoard)
      ensures this.x == x && this.y == y && this.tileType == tileType && this.board == board
      ensures orientation == 1 && !locked && connectedNeighbors == []
    {
      this.x, this.y, this.tileType, this.board := x, y, tileType, board;
      orientation, locked, connectedNeighbors := 1, false, [];
    }

    /** The tile is the one its board holds at its own position. */
    ghost predicate Placed()
      reads board
    {
      board.Valid() && x < board.width && y < board.height && board.board[y][x] == this
    }

    /** Neither the east nor the south lookup of this tile leaves the grid. */
    predicate Interior() {
      x + 1 < board.width && y + 1 < board.height
    }

    predicate IsEmpty() {
      tileType in ['_']
    }

    predicate IsGasTank() {
      tileType in ['1', '2', '3']
    }

    predicate IsPipe() {
      tileType in ['I', 'L', 'T']
    }

    predicate IsHouse() {
      tileType in ['H']
    }

    predicate IsLocked()
      reads this`locked
    {
      locked
    }

    /** `get_readable_orientation`: the letter the solver writes for this tile. */
    function ReadableOrientation(): (c: char)
      reads this`orientation
      requires IsEmpty() || IsOrientation(orientation)
      ensures c == '_' <==> IsEmpty()
      ensures !IsEmpty() ==> c in DrawBoard.OrientationLetterMap && DrawBoard.OrientationLetterMap[c] == orientation - 1
    {
      if !IsEmpty() then TileOrientationsMap[orientation] else '_'
    }

    /** `get_northern_neighbor`: row 0 wraps to the last row. */
    function NorthernNeighbor(): (r: MyTile)
      reads board
      requires Placed()
      ensures r.board == board && r.Placed()
      ensures r.x == x && r.y == (y + board.height - 1) % board.height
    {
      var ny := if y == 0 then board.height - 1 else y - 1;
      board.board[ny][x]
    }

    /**
     * `get_eastern_neighbor`. The wrap test compares with the width rather
     * than the last column, so on the last column the lookup runs past the
     * row's dictionary: `None` stands for the KeyError it raises.
     */
    function EasternNeighbor(): (r: Option<MyTile>)
      reads board
      requires Placed()
      ensures r.Some? <==> x + 1 < board.width
      ensures r.Some? ==> r.value.board == board && r.value.Placed() && r.value.x == x + 1 && r.value.y == y
    {
      var nx := if x == board.width then 0 else x + 1;
      if nx < board.width then Some(board.board[y][nx]) else None
    }

    /** `get_southern_neighbor`: like the east lookup, it fails (KeyError) on the last row. */
    function SouthernNeighbor(): (r: Option<MyTile>)
      reads board
      requires Placed()
      ensures r.Some? <==> y + 1 < board.height
      ensures r.Some? ==> r.value.board == board && r.value.Placed() && r.value.x == x && r.value.y == y + 1
    {
      var ny := if y == board.height then 0 else y + 1;
      if ny < board.height then Some(board.board[ny][x]) else None
    }

    /** `get_western_neighbor`: column 0 wraps to the last column. */
    function WesternNeighbor(): (r: MyTile)
      reads board
      requires Placed()
      ensures r.board == board && r.Placed()
      ensures r.x == (x + board.width - 1) % board.width && r.y == y
    {
      var nx := if x == 0 then board.width - 1 else x - 1;
      board.board[y][nx]
    }

    /**
     * `get_neighbors`: north, east, south, west, or `None` when one of the
     * lookups raises. Neighbour i lies one step away in orientation i + 1,
     * and none of them is the tile itself.
     */
    function GetNeighbors(): (r: Option<seq<MyTile>>)
      reads board
      requires Placed()
      ensures r.Some? <==> Interior()
      ensures r.Some? ==> |r.value| == 4 && forall i :: 0 <= i < 4 ==>
                r.value[i].board == board && r.value[i].Placed() && r.value[i] != this &&
                (r.value[i].x, r.value[i].y) == Step(x, y, i + 1, board.width, board.height)
    {
      match (EasternNeighbor(), SouthernNeighbor())
      case (Some(east), Some(south)) => Some([NorthernNeighbor(), east, south, WesternNeighbor()])
      case _ => None
    }

    /** The lookup `tiles_are_connected` makes for this pair stays on the grid. */
    predicate LookupSafe(neighbor: MyTile)
      reads this`orientation, neighbor`orientation
    {
      (orientation == 2 && neighbor.orientation == 4 ==> x + 1 < board.width) &&
      (orientation == 3 && neighbor.orientation == 1 ==> y + 1 < board.height)
    }

    /** `neighbor` is the tile one step from this one in the direction this one faces. */
    ghost predicate Faces(neighbor: MyTile)
      reads this`orientation, board
    {
      board.Valid() && neighbor.board == board && neighbor.Placed() &&
      (neighbor.x, neighbor.y) == Step(x, y, orientation, board.width, board.height)
    }

    /**
     * `tiles_are_connected`: a single-exit rule. This tile must face the
     * neighbour, and the neighbour must face back.
     */
    predicate TilesAreConnected(neighbor: MyTile)
      reads this`orientation, neighbor`orientation, board
      requires Placed() && LookupSafe(neighbor)
      ensures TilesAreConnected(neighbor) <==>
                IsOrientation(orientation) && neighbor.orientation == Opposite(orientation) && Faces(neighbor)
    {
      if orientation == 1 && neighbor.orientation == 3 && NorthernNeighbor() == neighbor then true
      else if orientation == 2 && neighbor.orientation == 4 && EasternNeighbor().value == neighbor then true
      else if orientation == 3 && neighbor.orientation == 1 && SouthernNeighbor().value == neighbor then true
      else if orientation == 4 && neighbor.orientation == 2 && WesternNeighbor() == neighbor then true
      else false
    }

    /** `_can_rotate_neighbor_to_connect`. */
    predicate CanRotateNeighborToConnect(neighbor: MyTile)
      reads neighbor`locked
    {
      !neighbor.IsLocked()
    }

    /** `rotate(num_rotations)`: clockwise, one step at a time. */
    method Rotate(numRotations: nat)
      modifies this`orientation
      ensures orientation == Rotated(old(orientation), numRotations)
    {
      for i := 0 to numRotations
        invariant orientation == Rotated(old(orientation), i)
      {
        if orientation < 4 {
          orientation := orientation + 1;
        } else {
          orientation := 1;
        }
      }
    }

    /** The fields `connect` may change, of this tile and of `neighbor`. */
    function PairWith(neighbor: MyTile): (r: PairState)
      reads this`orientation, this`locked, neighbor`orientation, neighbor`locked
    {
      PairState(orientation, locked, neighbor.orientation, neighbor.locked)
    }

    /** On the board, `tiles_are_connected` is `ConnectedAt` at the two current orientations. */
    lemma ConnectedNow(neighbor: MyTile)
      requires Placed() && neighbor.Placed() && LookupSafe(neighbor)
      ensures TilesAreConnected(neighbor) <==> ConnectedAt(this, orientation, neighbor, neighbor.orientation)
    {
    }

    /**
     * `_connect_tiles`: up to four rounds of turning the neighbour one step
     * and trying this tile one step further on, then locking both tiles if
     * they end up connected.
     */
    method ConnectTiles(neighbor: MyTile) returns (connected: bool)
      requires Placed() && Interior() && neighbor != this && neighbor.Placed()
      requires IsOrientation(orientation) && IsOrientation(neighbor.orientation)
      modifies this`orientation, this`locked, neighbor`orientation, neighbor`locked
      ensures Connection(PairWith(neighbor), connected) == ConnectTilesOutcome(this, neighbor, old(PairWith(neighbor)))
      ensures IsOrientation(orientation) && IsOrientation(neighbor.orientation)
      ensures connected <==> TilesAreConnected(neighbor)
      ensures connected ==> locked && neighbor.locked
      ensures !connected ==> orientation == old(orientation) && neighbor.orientation == old(neighbor.orientation) &&
                             locked == old(locked) && neighbor.locked == old(neighbor.locked)
      ensures old(locked) ==> locked && orientation == old(orientation)
      ensures old(neighbor.locked) ==> neighbor.locked && orientation == old(orientation) &&
                                       neighbor.orientation == old(neighbor.orientation)
      ensures old(neighbor.locked) ==> connected == old(TilesAreConnected(neighbor))
      ensures orientation == old(orientation) || orientation == Clockwise(old(orientation))
      ensures !old(neighbor.locked) && old(Faces(neighbor)) ==> connected && orientation == old(orientation)
      ensures !old(neighbor.locked) && !old(locked) && FacesFrom(this, Clockwise(old(orientation)), neighbor) ==>
                connected && orientation == Clockwise(old(orientation))
    {
      if CanRotateNeighborToConnect(neighbor) {
        AlignWith(neighbor);
      }
      ConnectedNow(neighbor);
      if TilesAreConnected(neighbor) {
        locked := true;
        neighbor.locked := true;
        return true;
      }
      return false;
    }

    /**
     * The loop of `_connect_tiles`: turn the neighbour one step per round
     * and, unless this tile is locked, try this tile one step on, undoing
     * that with `rotate(3)` when it does not connect. Either the pair ends
     * connected, or both tiles are back where they started.
     */
    method AlignWith(neighbor: MyTile)
      requires Placed() && Interior() && neighbor != this && neighbor.Placed()
      requires IsOrientation(orientation) && IsOrientation(neighbor.orientation)
      modifies this`orientation, neighbor`orientation
      ensures (orientation, neighbor.orientation) ==
              AlignRounds(this, neighbor, old(orientation), old(neighbor.orientation), locked, 0)
      ensures IsOrientation(orientation) && IsOrientation(neighbor.orientation)
      ensures TilesAreConnected(neighbor) ||
              (orientation == old(orientation) && neighbor.orientation == old(neighbor.orientation))
      ensures orientation == old(orientation) || (!locked && orientation == Clockwise(old(orientation)))
      ensures old(Faces(neighbor)) ==> TilesAreConnected(neighbor) && orientation == old(orientation)
      ensures !locked && FacesFrom(this, Clockwise(old(orientation)), neighbor) ==>
                TilesAreConnected(neighbor) && orientation == Clockwise(old(orientation))
    {
      ghost var start, neighborStart := orientation, neighbor.orientation;
      var i := 0;
      while i < 4
        invariant 0 <= i <= 4
        invariant orientation == start
        invariant neighbor.orientation == Rotated(neighborStart, i)
        invariant AlignRounds(this, neighbor, start, neighbor.orientation, locked, i) ==
                  AlignRounds(this, neighbor, start, neighborStart, locked, 0)
      {
        ConnectedNow(neighbor);
        if TilesAreConnected(neighbor) {
          break;
        }
        neighbor.Rotate(1);
        if !IsLocked() {
          Rotate(1);
          ConnectedNow(neighbor);
          if TilesAreConnected(neighbor) {
            break;
          }
          Rotate(3);
          RotateFullTurn(start);
        }
        i := i + 1;
      }
      AlignOutcome(this, neighbor, start, neighborStart, locked);
      ConnectedNow(neighbor);
    }

    /**
     * `connect`: an empty neighbour never connects; a connected pair is
     * left as it is; otherwise only a gas tank or pipe towards a pipe or
     * house is searched for a rotation.
     */
    method Connect(neighbor: MyTile) returns (connected: bool)
      requires Placed() && Interior() && neighbor != this && neighbor.Placed()
      requires IsOrientation(orientation) && IsOrientation(neighbor.orientation)
      modifies this`orientation, this`locked, neighbor`orientation, neighbor`locked
      ensures Connection(PairWith(neighbor), connected) == ConnectOutcome(this, neighbor, old(PairWith(neighbor)))
      ensures IsOrientation(orientation) && IsOrientation(neighbor.orientation)
      ensures neighbor.IsEmpty() ==> !connected
      ensures !neighbor.IsEmpty() ==> (connected <==> TilesAreConnected(neighbor))
      ensures old(TilesAreConnected(neighbor)) && !neighbor.IsEmpty() ==> connected
      ensures connected ==> old(TilesAreConnected(neighbor)) || SearchedPair(this, neighbor)
      ensures !connected || old(TilesAreConnected(neighbor)) ==>
                orientation == old(orientation) && neighbor.orientation == old(neighbor.orientation) &&
                locked == old(locked) && neighbor.locked == old(neighbor.locked)
      ensures connected && !old(TilesAreConnected(neighbor)) ==> locked && neighbor.locked
      ensures old(locked) ==> locked && orientation == old(orientation)
      ensures old(neighbor.locked) ==> neighbor.locked && orientation == old(orientation) &&
                                       neighbor.orientation == old(neighbor.orientation)
      ensures orientation == old(orientation) || orientation == Clockwise(old(orientation))
      ensures !neighbor.IsEmpty() && SearchedPair(this, neighbor) && !old(neighbor.locked) && old(Faces(neighbor)) ==>
                connected && orientation == old(orientation)
      ensures !neighbor.IsEmpty() && SearchedPair(this, neighbor) && !old(neighbor.locked) && !old(locked) &&
              FacesFrom(this, Clockwise(old(orientation)), neighbor) ==>
                connected && orientation == Clockwise(old(orientation))
    {
      ConnectedNow(neighbor);
      FacesOneWay(this, orientation, neighbor);
      if neighbor.IsEmpty() {
        return false;
      }
      if TilesAreConnected(neighbor) {
        return true;
      } else if IsGasTank() && neighbor.IsPipe() {
        connected := ConnectTiles(neighbor);
      } else if IsGasTank() && neighbor.IsHouse() {
        connected := ConnectTiles(neighbor);
      } else if IsPipe() && neighbor.IsPipe() {
        connected := ConnectTiles(neighbor);
      } else if IsPipe() && neighbor.IsHouse() {
        connected := ConnectTiles(neighbor);
      } else {
        return false;
      }
    }
  }

  /**
   * The kind tests split the letters of `TILE_TYPES`: a letter of the list
   * passes exactly one of them, and any other letter passes none.
   */
  lemma TileKinds(t: MyTile)
    ensures t.tileType in TileTypes <==> t.IsEmpty() || t.IsHouse() || t.IsPipe() || t.IsGasTank()
    ensures t.IsEmpty() ==> !t.IsHouse() && !t.IsPipe() && !t.IsGasTank()
    ensures t.IsHouse() ==> !t.IsPipe() && !t.IsGasTank()
    ensures t.IsPipe() ==> !t.IsGasTank()
  {
  }

  /** The kind pairs `connect` searches a rotation for: from a gas tank or pipe, to a pipe or house. */
  predicate SearchedPair(from: MyTile, to: MyTile) {
    (from.IsGasTank() || from.IsPipe()) && (to.IsPipe() || to.IsHouse())
  }

  /** `neighbor` lies one step from `tile` in orientation o, as the lookup for o finds it. */
  predicate FacesFrom(tile: MyTile, o: int, neighbor: MyTile) {
    neighbor.board == tile.board &&
    (neighbor.x, neighbor.y) == Step(tile.x, tile.y, o, tile.board.width, tile.board.height)
  }

  /** `tiles_are_connected` with `tile` at orientation o and `neighbor` at orientation no. */
  predicate ConnectedAt(tile: MyTile, o: int, neighbor: MyTile, no: int) {
    IsOrientation(o) && no == Opposite(o) && FacesFrom(tile, o, neighbor)
  }

  /** A tile on the grid faces a given tile in at most one of two successive orientations. */
  lemma FacesOneWay(tile: MyTile, o: int, neighbor: MyTile)
    requires IsOrientation(o) && tile.x < tile.board.width && tile.y < tile.board.height
    ensures !(FacesFrom(tile, o, neighbor) && FacesFrom(tile, Clockwise(o), neighbor))
  {
  }

  /**
   * The rounds of the `_connect_tiles` loop from round i on, as the pair of
   * orientations they end with. The tile starts every round at o and the
   * neighbour at no. A round stops the loop when the pair is connected as
   * it stands, or, for an unlocked tile, once the neighbour and the tile
   * have each turned one step; otherwise the tile turns back and the next
   * round starts with the neighbour one step on.
   */
  function AlignRounds(tile: MyTile, neighbor: MyTile, o: int, no: int, tileLocked: bool, i: nat): (r: (int, int))
    decreases 4 - i
  {
    if i >= 4 || ConnectedAt(tile, o, neighbor, no) then (o, no)
    else if !tileLocked && ConnectedAt(tile, Clockwise(o), neighbor, Clockwise(no)) then (Clockwise(o), Clockwise(no))
    else AlignRounds(tile, neighbor, o, Clockwise(no), tileLocked, i + 1)
  }

  /** The rounds end connected, or with the tile back at o and the neighbour four steps on. */
  lemma {:induction false} AlignRestores(tile: MyTile, neighbor: MyTile, o: int, no: int, tileLocked: bool, i: nat)
    requires IsOrientation(o) && IsOrientation(no) && i <= 4
    ensures var r := AlignRounds(tile, neighbor, o, Rotated(no, i), tileLocked, i);
              IsOrientation(r.0) && IsOrientation(r.1) && (r.0 == o || (!tileLocked && r.0 == Clockwise(o))) &&
              (ConnectedAt(tile, r.0, neighbor, r.1) || r == (o, Rotated(no, 4)))
    decreases 4 - i
  {
    if i < 4 && !ConnectedAt(tile, o, neighbor, Rotated(no, i)) &&
       !(!tileLocked && ConnectedAt(tile, Clockwise(o), neighbor, Clockwise(Rotated(no, i)))) {
      AlignRestores(tile, neighbor, o, no, tileLocked, i + 1);
    }
  }

  /** When the tile faces the neighbour, the rounds stop at the round the neighbour faces back. */
  lemma {:induction false} AlignFacing(tile: MyTile, neighbor: MyTile, o: int, no: int, tileLocked: bool, i: nat, k: nat)
    requires IsOrientation(o) && IsOrientation(no) && i <= k < 4
    requires tile.x < tile.board.width && tile.y < tile.board.height
    requires FacesFrom(tile, o, neighbor) && Rotated(no, k) == Opposite(o)
    ensures AlignRounds(tile, neighbor, o, Rotated(no, i), tileLocked, i) == (o, Opposite(o))
    decreases k - i
  {
    if i < k {
      RotatedModulo(no, i);
      RotatedModulo(no, k);
      FacesOneWay(tile, o, neighbor);
      AlignFacing(tile, neighbor, o, no, tileLocked, i + 1, k);
    }
  }

  /**
   * When an unlocked tile would face the neighbour one step clockwise on,
   * the rounds stop with the tile turned at the round the neighbour faces
   * back.
   */
  lemma {:induction false} AlignClockwise(tile: MyTile, neighbor: MyTile, o: int, no: int, i: nat, k: nat)
    requires IsOrientation(o) && IsOrientation(no) && i <= k < 4
    requires tile.x < tile.board.width && tile.y < tile.board.height
    requires FacesFrom(tile, Clockwise(o), neighbor) && Rotated(no, k + 1) == Opposite(Clockwise(o))
    ensures AlignRounds(tile, neighbor, o, Rotated(no, i), false, i) == (Clockwise(o), Opposite(Clockwise(o)))
    decreases k - i
  {
    FacesOneWay(tile, o, neighbor);
    if i < k {
      RotatedModulo(no, i + 1);
      RotatedModulo(no, k + 1);
      AlignClockwise(tile, neighbor, o, no, i + 1, k);
    }
  }

  /**
   * What the rounds of `_connect_tiles` achieve: the pair ends connected or
   * both orientations are restored; the tile turns at most one step, and
   * only when unlocked; a neighbour the tile faces always connects with the
   * tile unturned; and a neighbour an unlocked tile faces one step on
   * always connects with the tile turned that step.
   */
  lemma AlignOutcome(tile: MyTile, neighbor: MyTile, o: int, no: int, tileLocked: bool)
    requires IsOrientation(o) && IsOrientation(no)
    requires tile.x < tile.board.width && tile.y < tile.board.height
    ensures var r := AlignRounds(tile, neighbor, o, no, tileLocked, 0);
              IsOrientation(r.0) && IsOrientation(r.1) && (r.0 == o || (!tileLocked && r.0 == Clockwise(o)))
    ensures var r := AlignRounds(tile, neighbor, o, no, tileLocked, 0);
              ConnectedAt(tile, r.0, neighbor, r.1) || r == (o, no)
    ensures FacesFrom(tile, o, neighbor) ==> AlignRounds(tile, neighbor, o, no, tileLocked, 0) == (o, Opposite(o))
    ensures !tileLocked && FacesFrom(tile, Clockwise(o), neighbor) ==>
              AlignRounds(tile, neighbor, o, no, tileLocked, 0) == (Clockwise(o), Opposite(Clockwise(o)))
  {
    AlignRestores(tile, neighbor, o, no, tileLocked, 0);
    RotateFullTurn(no);
    if FacesFrom(tile, o, neighbor) {
      var k := RotationsBetween(no, Opposite(o));
      AlignFacing(tile, neighbor, o, no, tileLocked, 0, k);
    }
    if !tileLocked && FacesFrom(tile, Clockwise(o), neighbor) {
      var k := RotationsBetween(no, Opposite(Clockwise(o)));
      var j := (k + 3) % 4;
      RotatedModulo(no, k);
      RotatedModulo(no, j + 1);
      AlignClockwise(tile, neighbor, o, no, 0, j);
    }
  }

  /** The changing fields of a tile and its neighbour. */
  datatype PairState = PairState(orientation: int, locked: bool, neighborOrientation: int, neighborLocked: bool)

  /** The fields of the pair after `connect` or `_connect_tiles`, and what it returned. */
  datatype Connection = Connection(pair: PairState, connected: bool)

  /**
   * `_connect_tiles` on the pair as it stands in p: the rounds run only
   * when the neighbour is unlocked, and a connected pair is locked.
   */
  function ConnectTilesOutcome(tile: MyTile, neighbor: MyTile, p: PairState): (r: Connection) {
    var r := if !p.neighborLocked then AlignRounds(tile, neighbor, p.orientation, p.neighborOrientation, p.locked, 0)
             else (p.orientation, p.neighborOrientation);
    if ConnectedAt(tile, r.0, neighbor, r.1) then Connection(PairState(r.0, true, r.1, true), true)
    else Connection(p.(orientation := r.0, neighborOrientation := r.1), false)
  }

  /** `connect` on the pair as it stands in p. */
  function ConnectOutcome(tile: MyTile, neighbor: MyTile, p: PairState): (r: Connection) {
    if neighbor.IsEmpty() then Connection(p, false)
    else if ConnectedAt(tile, p.orientation, neighbor, p.neighborOrientation) then Connection(p, true)
    else if SearchedPair(tile, neighbor) then ConnectTilesOutcome(tile, neighbor, p)
    else Connection(p, false)
  }

  /** A tile is connected to at most one tile: the one it faces. */
  lemma ConnectedToAtMostOne(a: MyTile, b: MyTile, c: MyTile)
    requires a.Placed() && a.LookupSafe(b) && a.LookupSafe(c)
    requires a.TilesAreConnected(b) && a.TilesAreConnected(c)
    ensures b == c
  {
  }

  /**
   * Away from the wrap of the north and west lookups the relation is
   * symmetric. Across that wrap it is not: the tile reached faces south
   * from the last row or east from the last column, and its own check
   * would run off the grid.
   */
  lemma {:induction false} ConnectedSymmetry(a: MyTile, b: MyTile)
    requires a.Placed() && a.LookupSafe(b) && a.TilesAreConnected(b)
    ensures b.Placed() && b.board == a.board
    ensures (a.orientation == 1 && a.y == 0) || (a.orientation == 4 && a.x == 0) ==> !b.LookupSafe(a)
    ensures !((a.orientation == 1 && a.y == 0) || (a.orientation == 4 && a.x == 0)) ==>
              b.LookupSafe(a) && b.TilesAreConnected(a)
  {
    OppositePairs(a.orientation);
    var board := a.board;
    if a.orientation == 1 && a.y > 0 {
      assert b.SouthernNeighbor() == Some(a) by {
        assert board.board[b.y + 1][b.x] == a;
      }
    } else if a.orientation == 2 {
      assert b.WesternNeighbor() == a by {
        assert board.board[b.y][b.x - 1] == a;
      }
    } else if a.orientation == 3 {
      assert b.NorthernNeighbor() == a by {
        assert board.board[b.y - 1][b.x] == a;
      }
    } else if a.orientation == 4 && a.x > 0 {
      assert b.EasternNeighbor() == Some(a) by {
        assert board.board[b.y][b.x + 1] == a;
      }
    }
  }

  /** A sequence without repeated elements. */
  predicate NoDuplicates<T(==)>(s: seq<T>) {
    forall i, j :: 0 <= i < j < |s| ==> s[i] != s[j]
  }

  /** Where `find_path` stops. */
  datatype PathOutcome =
    | HouseConnected(from: MyTile, house: MyTile)  // a house connected: `return  # Success`
    | Exhausted                                     // a layer found no tile to continue with
    | KeyError(at: MyTile)                          // `get_neighbors` of a tile on the last column or row
    | RecursionLimit                                // the recursion ran out of fuel

  /** The fields of a tile that the search changes. */
  datatype TileState = TileState(orientation: int, locked: bool, connected: seq<MyTile>)

  /** The changing part of a board: the state of each of its tiles. */
  type BoardState = map<MyTile, TileState>

  /** The pair `tile`, `neighbor` as it stands in board state s. */
  function PairIn(s: BoardState, tile: MyTile, neighbor: MyTile): (r: PairState)
    requires tile in s && neighbor in s
  {
    PairState(s[tile].orientation, s[tile].locked, s[neighbor].orientation, s[neighbor].locked)
  }

  /** Board state s with the pair `tile`, `neighbor` set to p. */
  function WithPair(s: BoardState, tile: MyTile, neighbor: MyTile, p: PairState): (r: BoardState)
    requires tile in s && neighbor in s
    ensures r.Keys == s.Keys
  {
    s[tile := s[tile].(orientation := p.orientation, locked := p.locked)]
     [neighbor := s[neighbor].(orientation := p.neighborOrientation, locked := p.neighborLocked)]
  }

  /** Board state s with `neighbor` appended to the connected neighbours of `tile`, unless already there. */
  function WithConnected(s: BoardState, tile: MyTile, neighbor: MyTile): (r: BoardState)
    requires tile in s
    ensures r.Keys == s.Keys
  {
    if neighbor in s[tile].connected then s
    else s[tile := s[tile].(connected := s[tile].connected + [neighbor])]
  }

  /** A pass, or several, of the inner loop of `find_path`: the board state, the next layer, and a house that connected. */
  datatype Visit = Visit(state: BoardState, next: seq<MyTile>, house: Option<MyTile>)

  /**
   * One pass of the inner loop of `find_path` on board state s: `tile`
   * calls `connect` on `neighbor`. On success the neighbour joins the
   * tile's `connected_neighbors` unless already there; then a house ends
   * the layer, and any other neighbour joins the next layer unless already
   * there. (Board states here record every tile; one that lacks either
   * tile is left as it is.)
   */
  function VisitOutcome(s: BoardState, tile: MyTile, neighbor: MyTile, next: seq<MyTile>): (r: Visit)
    ensures r.state.Keys == s.Keys
  {
    if tile !in s || neighbor !in s then Visit(s, next, None)
    else
      var c := ConnectOutcome(tile, neighbor, PairIn(s, tile, neighbor));
      var s1 := WithPair(s, tile, neighbor, c.pair);
      var s2 := if c.connected then WithConnected(s1, tile, neighbor) else s1;
      if c.connected && neighbor.IsHouse() then Visit(s2, next, Some(neighbor))
      else Visit(s2, if c.connected && neighbor !in next then next + [neighbor] else next, None)
  }

  /** The inner loop of `find_path` for `tile`, from neighbour j on, until a house connects. */
  function VisitFrom(s: BoardState, tile: MyTile, neighbors: seq<MyTile>, j: nat, next: seq<MyTile>): (r: Visit)
    decreases |neighbors| - j, 1
  {
    if j >= |neighbors| then Visit(s, next, None)
    else VisitAt(s, tile, neighbors, j, next)
  }

  /** Neighbour j, then, unless it was a house that connected, the rest of the inner loop. */
  function VisitAt(s: BoardState, tile: MyTile, neighbors: seq<MyTile>, j: nat, next: seq<MyTile>): (r: Visit)
    requires j < |neighbors|
    decreases |neighbors| - j, 0
  {
    var v := VisitOutcome(s, tile, neighbors[j], next);
    if v.house.Some? then v else VisitFrom(v.state, tile, neighbors, j + 1, v.next)
  }

  /** `self.board` has the 7 x 10 shape of a board. */
  predicate GridShape(rows: seq<seq<MyTile>>) {
    |rows| == 10 && forall y :: 0 <= y < 10 ==> |rows[y]| == 7
  }

  /**
   * `get_neighbors` of the tile at (x, y) of grid `rows`: north and west
   * wrap around, while east and south raise KeyError (`None`) on the last
   * column and row.
   */
  function NeighborsIn(rows: seq<seq<MyTile>>, x: nat, y: nat): (r: Option<seq<MyTile>>)
    requires GridShape(rows)
  {
    if x + 1 < 7 && y + 1 < 10 then
      Some([rows[if y == 0 then 9 else y - 1][x], rows[y][x + 1], rows[y + 1][x], rows[y][if x == 0 then 6 else x - 1]])
    else None
  }

  /** One layer of `find_path`: the board state, the next layer, and the outcome when the layer stops the search. */
  datatype Expansion = Expansion(state: BoardState, next: seq<MyTile>, stop: Option<PathOutcome>)

  /** `find_path` as a whole: the board state it leaves and where it stops. */
  datatype Search = Search(state: BoardState, outcome: PathOutcome)

  /**
   * One layer of `find_path` on grid `rows` and board state s, from the
   * layer's k-th tile on: its tiles in turn, each as `ExpandAt` says,
   * until one of them stops the search.
   */
  function ExpandFrom(rows: seq<seq<MyTile>>, s: BoardState, layer: seq<MyTile>, k: nat, next: seq<MyTile>): (r: Expansion)
    requires GridShape(rows)
    decreases |layer| - k, 1
  {
    if k >= |layer| then Expansion(s, next, None)
    else ExpandAt(rows, s, layer, k, next)
  }

  /**
   * The layer's k-th tile and the rest of the layer: `get_neighbors`
   * raises KeyError for a tile on the last column or row; otherwise the
   * tile visits its neighbours, and a connected house stops the search
   * with success.
   */
  function ExpandAt(rows: seq<seq<MyTile>>, s: BoardState, layer: seq<MyTile>, k: nat, next: seq<MyTile>): (r: Expansion)
    requires GridShape(rows) && k < |layer|
    decreases |layer| - k, 0
  {
    var t := layer[k];
    match NeighborsIn(rows, t.x, t.y)
    case None => Expansion(s, next, Some(KeyError(t)))
    case Some(ns) =>
      var v := VisitFrom(s, t, ns, 0, next);
      if v.house.Some? then Expansion(v.state, v.next, Some(HouseConnected(t, v.house.value)))
      else ExpandFrom(rows, v.state, layer, k + 1, v.next)
  }

  /**
   * `find_path` on grid `rows` and board state s: expand the layer; stop
   * where the layer stops, recurse on a non-empty next layer, and
   * otherwise report that the search is exhausted. `fuel` bounds the depth
   * of the recursion.
   */
  function SearchFrom(rows: seq<seq<MyTile>>, s: BoardState, layer: seq<MyTile>, fuel: nat): (r: Search)
    requires GridShape(rows)
    decreases fuel
  {
    if fuel == 0 then Search(s, RecursionLimit)
    else
      var e := ExpandFrom(rows, s, layer, 0, []);
      if e.stop.Some? then Search(e.state, e.stop.value)
      else if e.next != [] then SearchFrom(rows, e.state, e.next, fuel - 1)
      else Search(e.state, Exhausted)
  }

  /**
   * A board state moves on from s0 to s1: the same tiles, a locked tile
   * stays locked at its orientation, and connected neighbours are only
   * ever appended.
   */
  predicate MovesOn(s0: BoardState, s1: BoardState) {
    s1.Keys == s0.Keys &&
    forall t :: t in s0 ==>
      (s0[t].locked ==> s1[t].locked && s1[t].orientation == s0[t].orientation) &&
      s0[t].connected <= s1[t].connected
  }

  /** Every orientation in range and no tile listed twice as a connected neighbour. */
  predicate StateConsistent(s: BoardState) {
    forall t :: t in s ==> IsOrientation(s[t].orientation) && NoDuplicates(s[t].connected)
  }

  lemma MovesOnTrans(s0: BoardState, s1: BoardState, s2: BoardState)
    requires MovesOn(s0, s1) && MovesOn(s1, s2)
    ensures MovesOn(s0, s2)
  {
    forall t | t in s0
      ensures s0[t].connected <= s2[t].connected
    {
      var a, b, c := s0[t].connected, s1[t].connected, s2[t].connected;
      assert a == b[..|a|] && b == c[..|b|];
    }
  }

  /** A locked tile never turns in the rounds of `_connect_tiles`. */
  lemma {:induction false} AlignLocked(tile: MyTile, neighbor: MyTile, o: int, no: int, i: nat)
    ensures AlignRounds(tile, neighbor, o, no, true, i).0 == o
    decreases 4 - i
  {
    if i < 4 && !ConnectedAt(tile, o, neighbor, no) {
      AlignLocked(tile, neighbor, o, Clockwise(no), i + 1);
    }
  }

  /**
   * What `connect` does to a pair: a locked tile of the pair stays locked
   * at its orientation; it reports success exactly when the pair it leaves
   * is connected and the neighbour is not empty; and from orientations in
   * range it keeps them in range and, on failure, leaves the pair as it was.
   */
  lemma ConnectKeeps(tile: MyTile, neighbor: MyTile, p: PairState)
    ensures var c := ConnectOutcome(tile, neighbor, p);
              (p.locked ==> c.pair.locked && c.pair.orientation == p.orientation) &&
              (p.neighborLocked ==> c.pair.neighborLocked && c.pair.neighborOrientation == p.neighborOrientation)
    ensures var c := ConnectOutcome(tile, neighbor, p);
              c.connected <==> !neighbor.IsEmpty() && ConnectedAt(tile, c.pair.orientation, neighbor, c.pair.neighborOrientation)
    ensures IsOrientation(p.orientation) && IsOrientation(p.neighborOrientation) ==>
              var c := ConnectOutcome(tile, neighbor, p);
              IsOrientation(c.pair.orientation) && IsOrientation(c.pair.neighborOrientation) && (c.connected || c.pair == p)
  {
    if p.locked {
      AlignLocked(tile, neighbor, p.orientation, p.neighborOrientation, 0);
    }
    if IsOrientation(p.orientation) && IsOrientation(p.neighborOrientation) {
      AlignRestores(tile, neighbor, p.orientation, p.neighborOrientation, p.locked, 0);
      RotateFullTurn(p.neighborOrientation);
    }
  }

  /** One visit moves the board state on and keeps it consistent. */
  lemma VisitKeeps(s: BoardState, tile: MyTile, neighbor: MyTile, next: seq<MyTile>)
    ensures var v := VisitOutcome(s, tile, neighbor, next);
              MovesOn(s, v.state) && (StateConsistent(s) ==> StateConsistent(v.state))
  {
    if tile in s && neighbor in s {
      var p := PairIn(s, tile, neighbor);
      var c := ConnectOutcome(tile, neighbor, p);
      ConnectKeeps(tile, neighbor, p);
      var s1 := WithPair(s, tile, neighbor, c.pair);
      assert MovesOn(s, s1);
      assert StateConsistent(s) ==> StateConsistent(s1);
      if c.connected {
        WithConnectedKeeps(s1, tile, neighbor);
        MovesOnTrans(s, s1, WithConnected(s1, tile, neighbor));
      }
    }
  }

  /** Appending a connected neighbour moves the state on and keeps it consistent. */
  lemma WithConnectedKeeps(s: BoardState, tile: MyTile, neighbor: MyTile)
    requires tile in s
    ensures MovesOn(s, WithConnected(s, tile, neighbor))
    ensures StateConsistent(s) ==> StateConsistent(WithConnected(s, tile, neighbor))
  {
  }

  /**
   * One visit, read off the state it leaves: `connect` succeeded exactly
   * when the neighbour is not empty and the pair now stands connected.
   * Then the neighbour is among the tile's connected neighbours, and a
   * house ends the layer while any other neighbour joins the next layer
   * unless already there. From a consistent state a failed visit changes
   * nothing.
   */
  lemma VisitMeaning(s: BoardState, tile: MyTile, neighbor: MyTile, next: seq<MyTile>)
    requires tile in s && neighbor in s && tile != neighbor
    ensures var v := VisitOutcome(s, tile, neighbor, next);
              var linked := !neighbor.IsEmpty() &&
                            ConnectedAt(tile, v.state[tile].orientation, neighbor, v.state[neighbor].orientation);
              (linked ==> neighbor in v.state[tile].connected) &&
              (v.house.Some? <==> linked && neighbor.IsHouse()) &&
              (v.house.Some? ==> v.house.value == neighbor && v.next == next) &&
              (v.house.None? ==> v.next == if linked && neighbor !in next then next + [neighbor] else next) &&
              (StateConsistent(s) && !linked ==> v.state == s)
  {
    var p := PairIn(s, tile, neighbor);
    ConnectKeeps(tile, neighbor, p);
    if StateConsistent(s) && !ConnectOutcome(tile, neighbor, p).connected {
      assert WithPair(s, tile, neighbor, p) == s;
    }
  }

  /** The inner loop moves the board state on and keeps it consistent. */
  lemma {:induction false} VisitFromKeeps(s: BoardState, tile: MyTile, neighbors: seq<MyTile>, j: nat, next: seq<MyTile>)
    ensures var v := VisitFrom(s, tile, neighbors, j, next);
              MovesOn(s, v.state) && (StateConsistent(s) ==> StateConsistent(v.state))
    decreases |neighbors| - j
  {
    if j < |neighbors| {
      assert VisitFrom(s, tile, neighbors, j, next) == VisitAt(s, tile, neighbors, j, next);
      var v := VisitOutcome(s, tile, neighbors[j], next);
      VisitKeeps(s, tile, neighbors[j], next);
      if v.house.None? {
        VisitFromKeeps(v.state, tile, neighbors, j + 1, v.next);
        MovesOnTrans(s, v.state, VisitFrom(v.state, tile, neighbors, j + 1, v.next).state);
      }
    }
  }

  /**
   * The next layer after one visit: as it was, or with the neighbour
   * appended once, when the neighbour is neither empty nor a house and is
   * now a connected neighbour of the tile.
   */
  lemma VisitNext(s: BoardState, tile: MyTile, neighbor: MyTile, next: seq<MyTile>)
    ensures var v := VisitOutcome(s, tile, neighbor, next);
              v.next == next ||
              (v.house.None? && neighbor !in next && v.next == next + [neighbor] && !neighbor.IsEmpty() &&
               !neighbor.IsHouse() && tile in v.state && neighbor in v.state[tile].connected)
  {
    if tile in s && neighbor in s {
      ConnectKeeps(tile, neighbor, PairIn(s, tile, neighbor));
    }
  }

  /**
   * The next layer after the inner loop: the layer it was given followed
   * by neighbours from j on, each once, none empty and none a house, and
   * each now a connected neighbour of the tile.
   */
  lemma {:induction false} VisitFromNext(s: BoardState, tile: MyTile, neighbors: seq<MyTile>, j: nat, next: seq<MyTile>)
    ensures var v := VisitFrom(s, tile, neighbors, j, next);
              next <= v.next && (NoDuplicates(next) ==> NoDuplicates(v.next)) &&
              forall i :: |next| <= i < |v.next| ==>
                v.next[i] in neighbors[j..] && !v.next[i].IsEmpty() && !v.next[i].IsHouse() &&
                tile in v.state && v.next[i] in v.state[tile].connected
    decreases |neighbors| - j
  {
    if j < |neighbors| {
      assert VisitFrom(s, tile, neighbors, j, next) == VisitAt(s, tile, neighbors, j, next);
      var n := neighbors[j];
      var v1 := VisitOutcome(s, tile, n, next);
      VisitNext(s, tile, n, next);
      if v1.house.None? {
        var v := VisitFrom(v1.state, tile, neighbors, j + 1, v1.next);
        assert VisitFrom(s, tile, neighbors, j, next) == v;
        VisitFromNext(v1.state, tile, neighbors, j + 1, v1.next);
        VisitFromKeeps(v1.state, tile, neighbors, j + 1, v1.next);
        assert next <= v.next by {
          assert next == v1.next[..|next|] && v1.next == v.next[..|v1.next|];
        }
        forall i | |next| <= i < |v.next|
          ensures v.next[i] in neighbors[j..] && !v.next[i].IsEmpty() && !v.next[i].IsHouse() &&
                  tile in v.state && v.next[i] in v.state[tile].connected
        {
          if i < |v1.next| {
            assert v.next[i] == v1.next[i] == n == neighbors[j..][0];
            assert v1.state[tile].connected <= v.state[tile].connected;
          } else {
            assert v.next[i] in neighbors[j + 1..];
            assert neighbors[j + 1..] == neighbors[j..][1..];
          }
        }
      }
    }
  }

  /** A house that ends the inner loop is one of the neighbours from j on, and now stands connected to the tile. */
  lemma {:induction false} VisitFromHouse(s: BoardState, tile: MyTile, neighbors: seq<MyTile>, j: nat, next: seq<MyTile>)
    requires forall n :: n in neighbors ==> n != tile
    ensures var v := VisitFrom(s, tile, neighbors, j, next);
              v.house.Some? ==> HouseReachedFrom(v.state, tile, v.house.value) && v.house.value in neighbors[j..]
    decreases |neighbors| - j
  {
    if j < |neighbors| {
      assert VisitFrom(s, tile, neighbors, j, next) == VisitAt(s, tile, neighbors, j, next);
      var n := neighbors[j];
      var v1 := VisitOutcome(s, tile, n, next);
      if v1.house.Some? {
        VisitMeaning(s, tile, n, next);
      } else {
        VisitFromHouse(v1.state, tile, neighbors, j + 1, v1.next);
        assert forall m :: m in neighbors[j + 1..] ==> m in neighbors[j..];
      }
    }
  }

  /** In board state s, `house` is a house that stands connected to `tile` and is listed among its connected neighbours. */
  predicate HouseReachedFrom(s: BoardState, tile: MyTile, house: MyTile) {
    house.IsHouse() && tile in s && house in s && house in s[tile].connected &&
    ConnectedAt(tile, s[tile].orientation, house, s[house].orientation)
  }

  /** From a consistent state, an inner loop that connects nothing leaves the state as it was. */
  lemma {:induction false} VisitFromIdle(s: BoardState, tile: MyTile, neighbors: seq<MyTile>, j: nat)
    requires StateConsistent(s)
    ensures var v := VisitFrom(s, tile, neighbors, j, []);
              v.house.None? && v.next == [] ==> v.state == s
    decreases |neighbors| - j
  {
    if j < |neighbors| {
      assert VisitFrom(s, tile, neighbors, j, []) == VisitAt(s, tile, neighbors, j, []);
      var n := neighbors[j];
      var v1 := VisitOutcome(s, tile, n, []);
      if v1.house.None? {
        if v1.next == [] {
          if tile in s && n in s {
            var p := PairIn(s, tile, n);
            ConnectKeeps(tile, n, p);
            assert WithPair(s, tile, n, p) == s;
          }
          VisitFromIdle(s, tile, neighbors, j + 1);
        } else {
          VisitFromNext(v1.state, tile, neighbors, j + 1, v1.next);
        }
      }
    }
  }

  /** Each tile of the grid sits at its own coordinates. */
  predicate Coordinates(rows: seq<seq<MyTile>>) {
    GridShape(rows) && forall y, x :: 0 <= y < 10 && 0 <= x < 7 ==> rows[y][x].x == x && rows[y][x].y == y
  }

  /** A tile is none of its own neighbours. */
  lemma NeighborsApart(rows: seq<seq<MyTile>>, t: MyTile)
    requires Coordinates(rows)
    ensures NeighborsIn(rows, t.x, t.y).Some? ==> forall n :: n in NeighborsIn(rows, t.x, t.y).value ==> n != t
  {
  }

  /** A layer moves the board state on and keeps it consistent. */
  lemma {:induction false} ExpandKeeps(rows: seq<seq<MyTile>>, s: BoardState, layer: seq<MyTile>, k: nat, next: seq<MyTile>)
    requires GridShape(rows)
    ensures var e := ExpandFrom(rows, s, layer, k, next);
              MovesOn(s, e.state) && (StateConsistent(s) ==> StateConsistent(e.state))
    decreases |layer| - k
  {
    if k < |layer| {
        assert ExpandFrom(rows, s, layer, k, next) == ExpandAt(rows, s, layer, k, next);
    }
    if k < |layer| && NeighborsIn(rows, layer[k].x, layer[k].y).Some? {
      var t := layer[k];
      var v := VisitFrom(s, t, NeighborsIn(rows, t.x, t.y).value, 0, next);
      VisitFromKeeps(s, t, NeighborsIn(rows, t.x, t.y).value, 0, next);
      if v.house.None? {
        ExpandKeeps(rows, v.state, layer, k + 1, v.next);
        MovesOnTrans(s, v.state, ExpandFrom(rows, v.state, layer, k + 1, v.next).state);
      }
    }
  }

  /**
   * The next layer after a layer: the one it was given followed by tiles
   * each listed once, none empty and none a house, and each now a
   * connected neighbour of a tile of the layer from k on.
   */
  lemma {:induction false} ExpandNext(rows: seq<seq<MyTile>>, s: BoardState, layer: seq<MyTile>, k: nat, next: seq<MyTile>)
    requires GridShape(rows)
    ensures var e := ExpandFrom(rows, s, layer, k, next);
              next <= e.next && (NoDuplicates(next) ==> NoDuplicates(e.next)) &&
              forall i :: |next| <= i < |e.next| ==>
                !e.next[i].IsEmpty() && !e.next[i].IsHouse() &&
                exists l :: k <= l < |layer| && layer[l] in e.state && e.next[i] in e.state[layer[l]].connected
    decreases |layer| - k
  {
    if k < |layer| {
        assert ExpandFrom(rows, s, layer, k, next) == ExpandAt(rows, s, layer, k, next);
    }
    if k < |layer| && NeighborsIn(rows, layer[k].x, layer[k].y).Some? {
      var t := layer[k];
      var ns := NeighborsIn(rows, t.x, t.y).value;
      var v := VisitFrom(s, t, ns, 0, next);
      VisitFromNext(s, t, ns, 0, next);
      if v.house.None? {
        var e := ExpandFrom(rows, v.state, layer, k + 1, v.next);
        ExpandNext(rows, v.state, layer, k + 1, v.next);
        ExpandKeeps(rows, v.state, layer, k + 1, v.next);
        forall i | |next| <= i < |v.next|
          ensures layer[k] in e.state && e.next[i] in e.state[layer[k]].connected
        {
          assert e.next[i] == v.next[i];
          assert v.state[t].connected <= e.state[t].connected;
        }
      }
    }
  }

  /**
   * Where a layer stops the search: at a tile of the layer from k on,
   * either with KeyError for a tile on the last column or row, or with a
   * house among that tile's neighbours that now stands connected to it.
   */
  lemma {:induction false} ExpandStops(rows: seq<seq<MyTile>>, s: BoardState, layer: seq<MyTile>, k: nat, next: seq<MyTile>)
    requires Coordinates(rows)
    ensures var e := ExpandFrom(rows, s, layer, k, next);
              e.stop.Some? ==>
                match e.stop.value
                case HouseConnected(from, house) =>
                  from in layer[k..] && NeighborsIn(rows, from.x, from.y).Some? &&
                  house in NeighborsIn(rows, from.x, from.y).value && HouseReachedFrom(e.state, from, house)
                case KeyError(at) => at in layer[k..] && NeighborsIn(rows, at.x, at.y).None?
                case _ => false
    decreases |layer| - k
  {
    if k < |layer| {
        assert ExpandFrom(rows, s, layer, k, next) == ExpandAt(rows, s, layer, k, next);
    }
    if k < |layer| && NeighborsIn(rows, layer[k].x, layer[k].y).Some? {
      var t := layer[k];
      var ns := NeighborsIn(rows, t.x, t.y).value;
      var v := VisitFrom(s, t, ns, 0, next);
      NeighborsApart(rows, t);
      VisitFromHouse(s, t, ns, 0, next);
      if v.house.None? {
        ExpandStops(rows, v.state, layer, k + 1, v.next);
        assert forall m :: m in layer[k + 1..] ==> m in layer[k..];
      }
    }
  }

  /**
   * From a consistent state, a layer that connects nothing (no stop and
   * nothing for the next layer) leaves the board state as it was: the
   * layer before `Exhausted` changes no tile.
   */
  lemma {:induction false} ExpandIdle(rows: seq<seq<MyTile>>, s: BoardState, layer: seq<MyTile>, k: nat)
    requires GridShape(rows) && StateConsistent(s)
    ensures var e := ExpandFrom(rows, s, layer, k, []);
              e.stop.None? && e.next == [] ==> e.state == s
    decreases |layer| - k
  {
    if k < |layer| {
        assert ExpandFrom(rows, s, layer, k, []) == ExpandAt(rows, s, layer, k, []);
    }
    if k < |layer| && NeighborsIn(rows, layer[k].x, layer[k].y).Some? {
      var t := layer[k];
      var ns := NeighborsIn(rows, t.x, t.y).value;
      var v := VisitFrom(s, t, ns, 0, []);
      VisitFromIdle(s, t, ns, 0);
      if v.house.None? {
        if v.next == [] {
          ExpandIdle(rows, s, layer, k + 1);
        } else {
          ExpandNext(rows, v.state, layer, k + 1, v.next);
        }
      }
    }
  }

  /** The whole search moves the board state on and keeps it consistent. */
  lemma {:induction false} SearchKeeps(rows: seq<seq<MyTile>>, s: BoardState, layer: seq<MyTile>, fuel: nat)
    requires GridShape(rows)
    ensures var r := SearchFrom(rows, s, layer, fuel);
              MovesOn(s, r.state) && (StateConsistent(s) ==> StateConsistent(r.state))
    decreases fuel
  {
    if fuel > 0 {
      var e := ExpandFrom(rows, s, layer, 0, []);
      ExpandKeeps(rows, s, layer, 0, []);
      if e.stop.None? && e.next != [] {
        SearchKeeps(rows, e.state, e.next, fuel - 1);
        MovesOnTrans(s, e.state, SearchFrom(rows, e.state, e.next, fuel - 1).state);
      }
    }
  }

  /** The layer `find_path` was expanding when it stopped. */
  function LastLayer(rows: seq<seq<MyTile>>, s: BoardState, layer: seq<MyTile>, fuel: nat): (r: seq<MyTile>)
    requires GridShape(rows)
    decreases fuel
  {
    if fuel == 0 then layer
    else
      var e := ExpandFrom(rows, s, layer, 0, []);
      if e.stop.None? && e.next != [] then LastLayer(rows, e.state, e.next, fuel - 1) else layer
  }

  /**
   * What `Exhausted` means: from a consistent state, the search ended on a
   * layer (non-empty when the first one was) that connected nothing, so
   * expanding it again on the board the search leaves changes no tile,
   * finds no tile to continue with and does not stop.
   */
  lemma {:induction false} SearchExhausted(rows: seq<seq<MyTile>>, s: BoardState, layer: seq<MyTile>, fuel: nat)
    requires Coordinates(rows) && StateConsistent(s)
    ensures var r := SearchFrom(rows, s, layer, fuel);
              r.outcome.Exhausted? ==>
                var last := LastLayer(rows, s, layer, fuel);
                (layer != [] ==> last != []) && ExpandFrom(rows, r.state, last, 0, []) == Expansion(r.state, [], None)
    decreases fuel
  {
    if fuel > 0 {
      var e := ExpandFrom(rows, s, layer, 0, []);
      if e.stop.None? && e.next != [] {
        ExpandKeeps(rows, s, layer, 0, []);
        SearchExhausted(rows, e.state, e.next, fuel - 1);
      } else {
        ExpandIdle(rows, s, layer, 0);
        ExpandStops(rows, s, layer, 0, []);
      }
    }
  }

  /**
   * Where the search ends: a success names a tile whose neighbour is a
   * house that now stands connected to it; KeyError names a tile on the
   * last column or row; and `Exhausted` needs at least one layer.
   */
  lemma {:induction false} SearchStops(rows: seq<seq<MyTile>>, s: BoardState, layer: seq<MyTile>, fuel: nat)
    requires Coordinates(rows)
    ensures var r := SearchFrom(rows, s, layer, fuel);
              match r.outcome
              case HouseConnected(from, house) =>
                NeighborsIn(rows, from.x, from.y).Some? && house in NeighborsIn(rows, from.x, from.y).value &&
                HouseReachedFrom(r.state, from, house)
              case KeyError(at) => NeighborsIn(rows, at.x, at.y).None?
              case Exhausted => fuel > 0
              case RecursionLimit => true
    decreases fuel
  {
    if fuel > 0 {
      var e := ExpandFrom(rows, s, layer, 0, []);
      ExpandStops(rows, s, layer, 0, []);
      if e.stop.None? && e.next != [] {
        SearchStops(rows, e.state, e.next, fuel - 1);
      }
    }
  }

  class MyBoard {
    const width: nat := 7
    const height: nat := 10
    /** `self.board`: row y, then column x. */
    var board: seq<seq<MyTile>>

    /** Every cell holds a tile that knows its own position and board. */
    ghost predicate Valid()
      reads this
    {
      |board| == height &&
      (forall y :: 0 <= y < height ==> |board[y]| == width) &&
      (forall y, x :: 0 <= y < height && 0 <= x < width ==>
         board[y][x].x == x && board[y][x].y == y && board[y][x].board == this)
    }

    /** All tiles of the board. */
    ghost function Tiles(): (r: set<MyTile>)
      reads this
    {
      set y, x | 0 <= y < |board| && 0 <= x < |board[y]| :: board[y][x]
    }

    /** Every tile of the board is placed at its own position. */
    lemma TilePlaced(t: MyTile)
      requires Valid() && t in Tiles()
      ensures t.board == this && t.Placed()
    {
      var y, x :| 0 <= y < |board| && 0 <= x < |board[y]| && board[y][x] == t;
    }

    /** What every operation keeps: orientations 1..4 and no tile listed twice as a connected neighbour. */
    ghost predicate Consistent()
      reads this, Tiles()
    {
      Valid() &&
      forall t :: t in Tiles() ==> IsOrientation(t.orientation) && NoDuplicates(t.connectedNeighbors)
    }

    /** No gas tank lies before row y0, column x0 in row-major order. */
    ghost predicate NoGasTankBefore(y0: int, x0: int)
      reads this
      requires Valid()
    {
      forall y, x :: 0 <= y < height && 0 <= x < width && (y < y0 || (y == y0 && x < x0)) ==>
        !board[y][x].IsGasTank()
    }

    /** The changing fields of every tile of the board. */
    ghost function Snapshot(): (s: BoardState)
      reads this, Tiles()
      ensures s.Keys == Tiles()
      ensures Valid() ==> Coordinates(board)
    {
      map t | t in Tiles() :: TileState(t.orientation, t.locked, t.connectedNeighbors)
    }

    /** A state that agrees with every tile is the snapshot. */
    lemma SnapshotIs(s: BoardState)
      requires s.Keys == Tiles()
      requires forall t :: t in Tiles() ==> s[t] == TileState(t.orientation, t.locked, t.connectedNeighbors)
      ensures Snapshot() == s
    {
    }

    /**
     * A tile of the board: its lookups are those of the grid, and its four
     * neighbours, when the lookups succeed, are tiles of the board.
     */
    lemma NeighborsAgree(t: MyTile)
      requires Valid() && t in Tiles()
      ensures t.board == this && t.Placed() && t.x < width && t.y < height
      ensures t.GetNeighbors() == NeighborsIn(board, t.x, t.y)
      ensures t.GetNeighbors().Some? ==> forall n :: n in t.GetNeighbors().value ==> n in Tiles()
    {
      TilePlaced(t);
      if t.GetNeighbors().Some? {
        forall n | n in t.GetNeighbors().value ensures n in Tiles() {
          assert n == board[n.y][n.x];
        }
      }
    }

    /** t is the first gas tank of the board in row-major order. */
    ghost predicate IsStartingPoint(t: MyTile)
      reads this
      requires Valid()
    {
      t in Tiles() && t.IsGasTank() && NoGasTankBefore(t.y, t.x)
    }

    /** At most one tile is the first gas tank. */
    lemma StartingPointUnique(a: MyTile, b: MyTile)
      requires Valid() && IsStartingPoint(a) && IsStartingPoint(b)
      ensures a == b
    {
      TilePlaced(a);
      TilePlaced(b);
    }

    /** The first gas tank of the board, if it has one. */
    ghost function StartingPoint(): (r: Option<MyTile>)
      reads this
      requires Valid()
    {
      if exists t :: t in Tiles() && IsStartingPoint(t) then Some(var t :| t in Tiles() && IsStartingPoint(t); t)
      else None
    }

    /**
     * `MyBoard.__init__` over the lines of the board file. Every one of the
     * 7 x 10 cells must be filled: the first ten lines strip to seven
     * characters and any further line strips to nothing.
     */
    constructor (lines: seq<string>)
      requires |lines| >= 10
      requires forall y :: 0 <= y < 10 ==> |Strip(lines[y], Unicode)| == 7
      requires forall y :: 10 <= y < |lines| ==> Strip(lines[y], Unicode) == []
      ensures Valid() && Consistent()
      ensures forall y, x :: 0 <= y < height && 0 <= x < width ==>
                fresh(board[y][x]) && IsNewTile(board[y][x], x, y, Strip(lines[y], Unicode)[x])
    {
      new;
      var rows := NewRows(lines);
      board := rows;
      NewBoardConsistent(lines);
    }

    /** A board whose cells are all tiles as the constructor creates them keeps the board invariant. */
    lemma NewBoardConsistent(lines: seq<string>)
      requires |lines| >= 10 && |board| == height
      requires forall y :: 0 <= y < height ==> |Strip(lines[y], Unicode)| == width && |board[y]| == width
      requires forall y, x :: 0 <= y < height && 0 <= x < width ==> IsNewTile(board[y][x], x, y, Strip(lines[y], Unicode)[x])
      ensures Valid() && Consistent()
    {
      forall t | t in Tiles() ensures IsOrientation(t.orientation) && NoDuplicates(t.connectedNeighbors) {
        var y, x :| 0 <= y < |board| && 0 <= x < |board[y]| && board[y][x] == t;
        assert IsNewTile(t, x, y, Strip(lines[y], Unicode)[x]);
      }
    }

    /** The outer loop of `MyBoard.__init__`: one row of new tiles per line. */
    method NewRows(lines: seq<string>) returns (rows: seq<seq<MyTile>>)
      requires |lines| >= 10
      requires forall y :: 0 <= y < 10 ==> |Strip(lines[y], Unicode)| == 7
      ensures |rows| == height
      ensures forall y :: 0 <= y < height ==> |rows[y]| == width
      ensures forall y, x :: 0 <= y < height && 0 <= x < width ==>
                fresh(rows[y][x]) && IsNewTile(rows[y][x], x, y, Strip(lines[y], Unicode)[x])
    {
      rows := [];
      ghost var made: set<MyTile> := {};
      for y := 0 to height
        invariant |rows| == y
        invariant forall j :: 0 <= j < y ==> |rows[j]| == width
        invariant forall j, i :: 0 <= j < y && 0 <= i < width ==>
                    rows[j][i] in made && PlacedAs(rows[j][i], i, j, Strip(lines[j], Unicode)[i])
        invariant forall t :: t in made ==> fresh(t) && IsInitial(t)
      {
        var row := NewRow(y, Strip(lines[y], Unicode));
        made := made + set t | t in row;
        var extended := rows + [row];
        forall j, i | 0 <= j <= y && 0 <= i < width
          ensures extended[j][i] in made && PlacedAs(extended[j][i], i, j, Strip(lines[j], Unicode)[i])
        {
          if j < y {
            assert extended[j] == rows[j];
          } else {
            assert extended[j] == row;
          }
        }
        rows := extended;
      }
    }

    /** The constant part of a tile as `MyTile(x, y, c, self)` creates it. */
    predicate PlacedAs(t: MyTile, x: nat, y: nat, c: char) {
      t.x == x && t.y == y && t.board == this && t.tileType == c
    }

    /** The changing part of a new tile: facing north, unlocked, with no connected neighbours. */
    ghost predicate IsInitial(t: MyTile)
      reads t
    {
      t.orientation == 1 && !t.locked && t.connectedNeighbors == []
    }

    /** A tile as `MyTile(x, y, c, self)` creates it. */
    ghost predicate IsNewTile(t: MyTile, x: nat, y: nat, c: char)
      reads t
    {
      PlacedAs(t, x, y, c) && IsInitial(t)
    }

    /** The inner loop of `MyBoard.__init__`: one new tile per character of a stripped line. */
    method NewRow(y: nat, line: string) returns (row: seq<MyTile>)
      ensures |row| == |line|
      ensures forall i :: 0 <= i < |line| ==> PlacedAs(row[i], i, y, line[i])
      ensures forall t :: t in row ==> fresh(t) && IsInitial(t)
    {
      row := [];
      for x := 0 to |line|
        invariant |row| == x
        invariant forall i :: 0 <= i < x ==> PlacedAs(row[i], i, y, line[i])
        invariant forall t :: t in row ==> fresh(t) && IsInitial(t)
      {
        var tile := new MyTile(x, y, line[x], this);
        row := row + [tile];
      }
    }

    /** `get_tile(x, y)`. */
    function GetTile(x: nat, y: nat): (t: MyTile)
      reads this
      requires Valid() && x < width && y < height
      ensures t.x == x && t.y == y && t.Placed() && t in Tiles()
    {
      board[y][x]
    }

    /** A first gas tank is the starting point. */
    lemma StartingPointIs(t: MyTile)
      requires Valid() && IsStartingPoint(t)
      ensures StartingPoint() == Some(t)
    {
      StartingPointUnique(StartingPoint().value, t);
    }

    /** A board without gas tanks has no starting point. */
    lemma NoStartingPoint()
      requires Valid() && NoGasTankBefore(height, 0)
      ensures StartingPoint() == None
    {
      forall t | t in Tiles() ensures !IsStartingPoint(t) {
        TilePlaced(t);
      }
    }

    /** `find_starting_point`: the first gas tank in row-major order, if there is one. */
    method FindStartingPoint() returns (sp: Option<MyTile>)
      requires Valid()
      ensures sp == StartingPoint()
      ensures sp.Some? ==> sp.value.Placed() && sp.value.board == this && sp.value.IsGasTank() &&
                           NoGasTankBefore(sp.value.y, sp.value.x)
      ensures sp.None? <==> NoGasTankBefore(height, 0)
    {
      for y := 0 to height
        invariant NoGasTankBefore(y, 0)
      {
        for x := 0 to width
          invariant NoGasTankBefore(y, x)
        {
          if board[y][x].IsGasTank() {
            assert board[y][x] in Tiles();
            StartingPointIs(board[y][x]);
            return Some(board[y][x]);
          }
        }
      }
      NoStartingPoint();
      return None;
    }

    /**
     * One pass of the inner loop of `find_path`: `tile` tries to connect to
     * `neighbor`. When they connect, the neighbour is added to the tile's
     * `connected_neighbors` and, unless it is a house (which ends the
     * search), to the next layer, each time only if it is not there yet.
     */
    method VisitNeighbor(tile: MyTile, neighbor: MyTile, continueWith: seq<MyTile>)
      returns (next: seq<MyTile>, houseConnected: bool)
      requires Consistent() && tile in Tiles() && tile.Placed() && tile.Interior()
      requires neighbor in Tiles() && neighbor != tile
      requires forall t :: t in continueWith ==> t in Tiles()
      modifies tile, neighbor`orientation, neighbor`locked
      ensures var v := VisitOutcome(old(Snapshot()), tile, neighbor, continueWith);
                Snapshot() == v.state && next == v.next && houseConnected == v.house.Some?
      ensures Consistent()
      ensures forall t :: t in next ==> t in Tiles()
      ensures houseConnected ==> !neighbor.IsEmpty() && neighbor.IsHouse() && tile.TilesAreConnected(neighbor) &&
                                 neighbor in tile.connectedNeighbors
    {
      next := continueWith;
      var connected := ConnectOnBoard(tile, neighbor);
      if connected {
        RecordNeighbor(tile, neighbor);
      }
      if connected && neighbor.IsHouse() {
        return next, true;
      }
      if connected && neighbor !in next {
        next := next + [neighbor];
      }
      return next, false;
    }

    /** Appending `neighbor` to the tile's `connected_neighbors` when it is not there yet. */
    method RecordNeighbor(tile: MyTile, neighbor: MyTile)
      requires Consistent() && tile in Tiles()
      modifies tile`connectedNeighbors
      ensures Snapshot() == WithConnected(old(Snapshot()), tile, neighbor)
      ensures Consistent()
      ensures tile.connectedNeighbors == if neighbor in old(tile.connectedNeighbors) then old(tile.connectedNeighbors)
                                         else old(tile.connectedNeighbors) + [neighbor]
    {
      ghost var s := Snapshot();
      if neighbor !in tile.connectedNeighbors {
        tile.connectedNeighbors := tile.connectedNeighbors + [neighbor];
        assert NoDuplicates(tile.connectedNeighbors);
        SnapshotIs(WithConnected(s, tile, neighbor));
      }
    }

    /**
     * `starting_tile.connect(neighbor)` on a consistent board: the pair
     * changes as `connect` changes it, every other tile stays as it was, and
     * the board stays consistent.
     */
    method ConnectOnBoard(tile: MyTile, neighbor: MyTile) returns (connected: bool)
      requires Consistent() && tile in Tiles() && tile.Placed() && tile.Interior()
      requires neighbor in Tiles() && neighbor != tile
      modifies tile`orientation, tile`locked, neighbor`orientation, neighbor`locked
      ensures var c := ConnectOutcome(tile, neighbor, PairIn(old(Snapshot()), tile, neighbor));
                Snapshot() == WithPair(old(Snapshot()), tile, neighbor, c.pair) && connected == c.connected
      ensures Consistent()
      ensures connected <==> !neighbor.IsEmpty() && tile.TilesAreConnected(neighbor)
    {
      TilePlaced(neighbor);
      ghost var s := Snapshot();
      assert PairIn(s, tile, neighbor) == tile.PairWith(neighbor);
      connected := tile.Connect(neighbor);
      ghost var c := ConnectOutcome(tile, neighbor, PairIn(s, tile, neighbor));
      SnapshotIs(WithPair(s, tile, neighbor, c.pair));
      assert Consistent();
    }

    /**
     * The inner loop of `find_path` for one tile: its four neighbours,
     * north, east, south, west, in turn, until a house connects.
     */
    method VisitNeighbors(tile: MyTile, neighbors: seq<MyTile>, continueWith: seq<MyTile>)
      returns (next: seq<MyTile>, house: Option<MyTile>)
      requires Consistent() && tile in Tiles() && tile.Placed() && tile.Interior()
      requires forall n :: n in neighbors ==> n in Tiles() && n != tile
      requires forall t :: t in continueWith ==> t in Tiles()
      modifies Tiles()
      ensures var v := VisitFrom(old(Snapshot()), tile, neighbors, 0, continueWith);
                Snapshot() == v.state && next == v.next && house == v.house
      ensures Consistent()
      ensures forall t :: t in next ==> t in Tiles()
    {
      next := continueWith;
      for j := 0 to |neighbors|
        invariant Consistent()
        invariant forall t :: t in next ==> t in Tiles()
        invariant VisitFrom(Snapshot(), tile, neighbors, j, next) ==
                  VisitFrom(old(Snapshot()), tile, neighbors, 0, continueWith)
      {
        assert VisitFrom(Snapshot(), tile, neighbors, j, next) == VisitAt(Snapshot(), tile, neighbors, j, next);
        var houseConnected;
        next, houseConnected := VisitNeighbor(tile, neighbors[j], next);
        if houseConnected {
          return next, Some(neighbors[j]);
        }
      }
      return next, None;
    }

    /**
     * One layer of `find_path`: every tile of the layer, in order, visits
     * its neighbours. A connected house ends the search at once, and a tile
     * on the last column or row raises KeyError in `get_neighbors`.
     */
    method ExpandLayer(startingTiles: seq<MyTile>) returns (continueWith: seq<MyTile>, stop: Option<PathOutcome>)
      requires Consistent()
      requires forall t :: t in startingTiles ==> t in Tiles()
      modifies Tiles()
      ensures var e := ExpandFrom(board, old(Snapshot()), startingTiles, 0, []);
                Snapshot() == e.state && continueWith == e.next && stop == e.stop
      ensures Consistent()
      ensures forall t :: t in continueWith ==> t in Tiles()
    {
      continueWith := [];
      for k := 0 to |startingTiles|
        invariant Consistent()
        invariant forall t :: t in continueWith ==> t in Tiles()
        invariant ExpandFrom(board, Snapshot(), startingTiles, k, continueWith) ==
                  ExpandFrom(board, old(Snapshot()), startingTiles, 0, [])
      {
        var startingTile := startingTiles[k];
        NeighborsAgree(startingTile);
        assert ExpandFrom(board, Snapshot(), startingTiles, k, continueWith) ==
               ExpandAt(board, Snapshot(), startingTiles, k, continueWith);
        var neighbors := startingTile.GetNeighbors();
        if neighbors.None? {
          return continueWith, Some(KeyError(startingTile));
        }
        var house;
        continueWith, house := VisitNeighbors(startingTile, neighbors.value, continueWith);
        if house.Some? {
          return continueWith, Some(HouseConnected(startingTile, house.value));
        }
      }
      return continueWith, None;
    }

    /**
     * `find_path`: expand layer after layer until a layer stops the search
     * or yields nothing. Nothing keeps a tile from coming back in a later
     * layer, so the search need not end; `fuel` bounds the depth of the
     * recursion, which in Python 2 ends in a RuntimeError (maximum
     * recursion depth exceeded).
     */
    method FindPath(startingTiles: seq<MyTile>, fuel: nat) returns (outcome: PathOutcome)
      requires Consistent()
      requires forall t :: t in startingTiles ==> t in Tiles()
      modifies Tiles()
      ensures var r := SearchFrom(board, old(Snapshot()), startingTiles, fuel);
                Snapshot() == r.state && outcome == r.outcome
      ensures Consistent()
      decreases fuel
    {
      if fuel == 0 {
        return RecursionLimit;
      }
      var continueWith, stop := ExpandLayer(startingTiles);
      if stop.Some? {
        return stop.value;
      }
      if continueWith != [] {
        outcome := FindPath(continueWith, fuel - 1);
      } else {
        outcome := Exhausted;
      }
    }

    /** A house the search reached in the snapshot stands connected to its tile on the board itself. */
    lemma HouseOnBoard(from: MyTile, house: MyTile)
      requires Consistent() && HouseReachedFrom(Snapshot(), from, house)
      requires from.x + 1 < width && from.y + 1 < height
      ensures from.Placed() && from.Interior() && house.IsHouse() && house in from.connectedNeighbors
      ensures from.TilesAreConnected(house)
    {
      TilePlaced(from);
      TilePlaced(house);
      from.ConnectedNow(house);
    }

    /**
     * `solve`: search from the first gas tank. A board without gas tanks is
     * left exactly as it was.
     */
    method Solve(fuel: nat) returns (outcome: Option<PathOutcome>)
      requires Consistent()
      modifies Tiles()
      ensures match StartingPoint()
              case None => outcome == None && Snapshot() == old(Snapshot())
              case Some(sp) =>
                var r := SearchFrom(board, old(Snapshot()), [sp], fuel);
                outcome == Some(r.outcome) && Snapshot() == r.state
      ensures Consistent()
      ensures outcome.None? <==> NoGasTankBefore(height, 0)
      ensures outcome.Some? && outcome.value.HouseConnected? ==>
                outcome.value.house.IsHouse() && outcome.value.from.Placed() && outcome.value.from.Interior() &&
                outcome.value.from.TilesAreConnected(outcome.value.house) &&
                outcome.value.house in outcome.value.from.connectedNeighbors
    {
      ghost var s := Snapshot();
      var sp := FindStartingPoint();
      if sp.Some? {
        assert sp.value == board[sp.value.y][sp.value.x];
        assert Snapshot() == s;
        var path := FindPath([sp.value], fuel);
        ghost var r := SearchFrom(board, s, [sp.value], fuel);
        if path.HouseConnected? {
          SearchStops(board, s, [sp.value], fuel);
          HouseOnBoard(path.from, path.house);
        }
        outcome := Some(path);
      } else {
        outcome := None;
      }
    }

    /** The letters the solver writes, one row of the board per string. */
    ghost function OutputRows(): (rows: seq<string>)
      reads this, Tiles()
      requires Consistent()
      ensures |rows| == height
      ensures forall y :: 0 <= y < height ==> |rows[y]| == width
      ensures forall y, x :: 0 <= y < height && 0 <= x < width ==> rows[y][x] == board[y][x].ReadableOrientation()
    {
      seq(height, y requires 0 <= y < height && Consistent() reads this, Tiles() =>
        seq(width, x requires 0 <= x < width && Consistent() reads this, Tiles() =>
          board[y][x].ReadableOrientation()))
    }

    /** The inner loop of `write_output_board_to_file`: the letters of row y. */
    method OutputRow(y: nat, ghost rows: seq<string>) returns (line: string)
      requires Consistent() && y < height && rows == OutputRows()
      ensures Consistent() && rows == OutputRows()
      ensures line == rows[y]
    {
      line := [];
      for x := 0 to width
        invariant line == rows[y][..x]
      {
        var tile := board[y][x].ReadableOrientation();
        line := line + [tile];
      }
    }

    /**
     * The text `write_output_board_to_file` writes: row after row of
     * orientation letters (`_` for an empty tile), a newline after every
     * row but the last.
     */
    method OutputBoardText() returns (text: string)
      requires Consistent()
      ensures text == JoinLines(OutputRows())
    {
      text := [];
      ghost var rows := OutputRows();
      for y := 0 to height
        invariant rows == OutputRows()
        invariant y == 0 ==> text == []
        invariant 0 < y < height ==> text == JoinLines(rows[..y]) + "\n"
        invariant y == height ==> text == JoinLines(rows)
      {
        var line := OutputRow(y, rows);
        if y > 0 {
          JoinLinesSnoc(rows[..y], line);
          assert rows[..y] + [line] == rows[..y + 1];
        } else {
          assert rows[..1] == [line];
        }
        if y < height - 1 {
          line := line + "\n";
        }
        text := text + line;
        if y == height - 1 {
          assert rows[..height] == rows;
        }
      }

    }
  }

  /** A row of the solver's output: orientation letters and `_`. */
  predicate IsOutputRow(r: string) {
    |r| > 0 && forall c :: c in r ==> c in "NESW_"
  }

  /** An output row holds no whitespace of either kind, newlines included. */
  lemma OutputRowPlain(r: string, ws: Whitespace)
    requires IsOutputRow(r)
    ensures forall c :: c in r ==> !IsSpace(c, ws)
  {
    forall c | c in r ensures !IsSpace(c, ws) {
      assert c in "NESW_";
    }
  }

  /** Line y of joined output rows strips back to row y, whichever whitespace the reader strips. */
  lemma OutputRowsReadBack(rows: seq<string>, y: nat, ws: Whitespace)
    requires forall r :: r in rows ==> IsOutputRow(r)
    requires y < |rows|
    ensures |SplitLines(JoinLines(rows))| == |rows|
    ensures Strip(SplitLines(JoinLines(rows))[y], ws) == rows[y]
  {
    forall r | r in rows ensures |r| > 0 && '\n' !in r {
      OutputRowPlain(r, ws);
    }
    SplitJoinLines(rows);
    assert rows[y] in rows;
    OutputRowPlain(rows[y], ws);
    StripLineOf(rows, y, ws);
  }

  /** The board's output rows are rows of letters. */
  lemma OutputRowsAreLetters(b: MyBoard)
    requires b.Consistent()
    ensures forall r :: r in b.OutputRows() ==> IsOutputRow(r)
  {
    var rows := b.OutputRows();
    forall j | 0 <= j < |rows| ensures IsOutputRow(rows[j]) {
      forall i | 0 <= i < |rows[j]| ensures rows[j][i] in "NESW_" {
        assert b.board[j][i] in b.Tiles();
        assert rows[j][i] == b.board[j][i].ReadableOrientation();
      }
    }
  }

  /**
   * Reading the solver's output back in draw_board.py: loading the text
   * `write_output_board_to_file` writes as a solution file gives every
   * non-empty tile its solver orientation minus one and leaves the cell of
   * an empty tile as it was.
   */
  lemma OutputRoundTrip(b: MyBoard, x: nat, y: nat, cell: DrawBoard.Tile)
    requires b.Consistent() && x < b.width && y < b.height
    ensures DrawBoard.LoadedOrientation(cell, SplitLines(JoinLines(b.OutputRows())), x, y) ==
              if b.board[y][x].IsEmpty() then cell
              else cell.(orientation := Some(b.board[y][x].orientation - 1))
  {
    var rows := b.OutputRows();
    OutputRowsAreLetters(b);
    OutputRowsReadBack(rows, y, Ascii);
    assert b.board[y][x] in b.Tiles();
    assert rows[y][x] == b.board[y][x].ReadableOrientation();
  }
}
