/**
  The shelf unit: a grid of `width` columns by `height` rows of piece slots,
  laid out column by column, with two posts at every column boundary and a
  board under every row and on top. Positions are in the unit's own frame.
 */
module Shelving {
  import opened Layout
  import opened Geometry
  import opened Slots

  const MIN_HEIGHT: real := 20.0
  const SHELF_H: real := 40.0
  const SHELF_W: real := 20.0

  /**
    The list index of the slot in column `i`, row `j` of a unit `height` rows
    high: the `height` slots of each column before it, then `j`
    (`SlotIndexIsProduct`: i * height + j).
   */
  function SlotIndex(i: nat, j: nat, height: nat): nat
  {
    Offset(height, i) + j
  }

  lemma SlotIndexIsProduct(i: nat, j: nat, height: nat)
    ensures SlotIndex(i, j, height) == i * height + j
  {
    OffsetIsProduct(height, i);
  }

  /** Where the slot in column `i`, row `j` sits: centred in its column, on its row's board. */
  function SlotPosition(i: nat, j: nat): Vec3
  {
    Vec3(SHELF_W * i as real + SHELF_W / 2.0, MIN_HEIGHT + SHELF_H * j as real, 0.0)
  }

  /** The slot positions of column `i`, bottom to top. */
  function ColumnPositions(i: nat, height: nat): (r: seq<Vec3>)
    ensures |r| == height
    ensures forall j :: 0 <= j < height ==> r[j] == SlotPosition(i, j)
  {
    seq(height, j requires 0 <= j < height => SlotPosition(i, j))
  }

  /** The slot positions of the first `width` columns of the unit, column after column. */
  function GridPositions(width: nat, height: nat): (r: seq<Vec3>)
    ensures |r| == Offset(height, width)
  {
    if width == 0 then [] else GridPositions(width - 1, height) + ColumnPositions(width - 1, height)
  }

  /** The positions of a list of slots. */
  function Positions(slots: seq<PieceSlot>): (r: seq<Vec3>)
    reads slots
    ensures |r| == |slots|
    ensures forall k :: 0 <= k < |slots| ==> r[k] == slots[k].position
  {
    seq(|slots|, k requires 0 <= k < |slots| reads slots => slots[k].position)
  }

  /** The height of a post: from the floor past the top board. */
  function PostHeight(height: nat): real
  {
    MIN_HEIGHT + height as real * SHELF_H
  }

  /** The two posts at column boundary `i`, front then back, standing on the floor. */
  function PostPair(i: nat, height: nat): seq<Vec3>
  {
    var x, y := i as real * SHELF_W, PostHeight(height) / 2.0;
    [Vec3(x, y, SHELF_W / 2.0), Vec3(x, y, -SHELF_W / 2.0)]
  }

  /** The posts at the first `boundaries` column boundaries. */
  function PostPositions(boundaries: nat, height: nat): seq<Vec3>
  {
    if boundaries == 0 then [] else PostPositions(boundaries - 1, height) + PostPair(boundaries - 1, height)
  }

  /** The board at row boundary `j`: centred across the unit's width. */
  function BoardPosition(j: nat, width: nat): Vec3
  {
    Vec3(width as real * SHELF_W / 2.0, MIN_HEIGHT + j as real * SHELF_H, 0.0)
  }

  /** The boards at the first `boundaries` row boundaries. */
  function BoardPositions(boundaries: nat, width: nat): seq<Vec3>
  {
    if boundaries == 0 then [] else BoardPositions(boundaries - 1, width) + [BoardPosition(boundaries - 1, width)]
  }

  /**
    Column-major order: every list index below width * height belongs to
    exactly one (column, row) pair, the one `SlotIndex` maps to it.
   */
  lemma SlotIndexBijective(width: nat, height: nat, i: nat, j: nat, i2: nat, j2: nat)
    requires i < width && j < height && i2 < width && j2 < height
    ensures SlotIndex(i, j, height) < width * height
    ensures SlotIndex(i, j, height) == SlotIndex(i2, j2, height) ==> i == i2 && j == j2
  {
    OffsetMonotone(height, i, width);
    OffsetIsProduct(height, width);
    if i < i2 {
      OffsetMonotone(height, i, i2);
    } else if i2 < i {
      OffsetMonotone(height, i2, i);
    }
  }

  /** The slot in column i, row j of the unit is at list index i * height + j. */
  lemma {:induction false} GridPositionAt(width: nat, height: nat, i: nat, j: nat)
    requires i < width && j < height
    ensures |GridPositions(width, height)| == width * height
    ensures SlotIndex(i, j, height) < |GridPositions(width, height)|
    ensures GridPositions(width, height)[SlotIndex(i, j, height)] == SlotPosition(i, j)
  {
    OffsetIsProduct(height, width);
    var front := GridPositions(width - 1, height);
    assert GridPositions(width, height) == front + ColumnPositions(width - 1, height);
    if i < width - 1 {
      GridPositionAt(width - 1, height, i, j);
      OffsetMonotone(height, i, width - 1);
    }
  }

  /** Posts come in pairs: 2 * boundaries of them, the pair at boundary i at x = 20 i, z = +10 and -10. */
  lemma {:induction false} PostsAt(boundaries: nat, height: nat, i: nat)
    requires i < boundaries
    ensures |PostPositions(boundaries, height)| == 2 * boundaries
    ensures PostPositions(boundaries, height)[2 * i] == Vec3(i as real * SHELF_W, PostHeight(height) / 2.0, SHELF_W / 2.0)
    ensures PostPositions(boundaries, height)[2 * i + 1] == Vec3(i as real * SHELF_W, PostHeight(height) / 2.0, -SHELF_W / 2.0)
  {
    PostsLength(boundaries - 1, height);
    if i < boundaries - 1 {
      PostsAt(boundaries - 1, height, i);
    }
  }

  lemma {:induction false} PostsLength(boundaries: nat, height: nat)
    ensures |PostPositions(boundaries, height)| == 2 * boundaries
  {
    if boundaries > 0 {
      PostsLength(boundaries - 1, height);
    }
  }

  /** One board per row boundary, the j-th at height 20 + 40 j. */
  lemma {:induction false} BoardsAt(boundaries: nat, width: nat, j: nat)
    requires j < boundaries
    ensures |BoardPositions(boundaries, width)| == boundaries
    ensures BoardPositions(boundaries, width)[j] == Vec3(width as real * SHELF_W / 2.0, MIN_HEIGHT + j as real * SHELF_H, 0.0)
  {
    BoardsLength(boundaries - 1, width);
    if j < boundaries - 1 {
      BoardsAt(boundaries - 1, width, j);
    }
  }

  lemma {:induction false} BoardsLength(boundaries: nat, width: nat)
    ensures |BoardPositions(boundaries, width)| == boundaries
  {
    if boundaries > 0 {
      BoardsLength(boundaries - 1, width);
    }
  }

  class Shelves {
    const width: nat
    const height: nat
    /** The unit's slots, column by column. */
    var slots: seq<PieceSlot>
    /** The post positions. */
    var posts: seq<Vec3>
    /** The board positions. */
    var boards: seq<Vec3>

    /**
      Builds a unit of `width` columns and `height` rows: width * height new
      empty slots at their grid positions, posts at the width + 1 column
      boundaries and boards at the height + 1 row boundaries.
     */
    constructor(height: nat, width: nat)
      ensures this.height == height && this.width == width
      ensures |slots| == width * height
      ensures Positions(slots) == GridPositions(width, height)
      ensures forall k :: 0 <= k < |slots| ==> fresh(slots[k]) && !slots[k].HasPiece() && slots[k].Valid()
      ensures forall a, b :: 0 <= a < b < |slots| ==> slots[a] != slots[b]
      ensures posts == PostPositions(width + 1, height)
      ensures boards == BoardPositions(height + 1, width)
    {
      this.height := height;
      this.width := width;
      var cells := BuildSlots(width, height);
      var postList := BuildPosts(width, height);
      var boardList := BuildBoards(width, height);
      slots, posts, boards := cells, postList, boardList;
    }

    /** The slot loops of the constructor: the unit's new, empty slots, column after column. */
    static method BuildSlots(width: nat, height: nat) returns (cells: seq<PieceSlot>)
      ensures |cells| == width * height
      ensures Positions(cells) == GridPositions(width, height)
      ensures forall k :: 0 <= k < |cells| ==> fresh(cells[k]) && !cells[k].HasPiece() && cells[k].Valid()
      ensures forall a, b :: 0 <= a < b < |cells| ==> cells[a] != cells[b]
    {
      cells := [];
      var i := 0;
      while i < width
        invariant i <= width
        invariant |cells| == Offset(height, i)
        invariant Positions(cells) == GridPositions(i, height)
        invariant forall k :: 0 <= k < |cells| ==> fresh(cells[k]) && !cells[k].HasPiece() && cells[k].Valid()
        invariant forall a, b :: 0 <= a < b < |cells| ==> cells[a] != cells[b]
      {
        var column := BuildColumn(i, height);
        assert Positions(cells + column) == Positions(cells) + Positions(column);
        cells := cells + column;
        i := i + 1;
      }
      OffsetIsProduct(height, width);
    }

    /** The post loop of the constructor: a front and a back post at each of the width + 1 column boundaries. */
    static method BuildPosts(width: nat, height: nat) returns (postList: seq<Vec3>)
      ensures postList == PostPositions(width + 1, height)
    {
      postList := [];
      var i := 0;
      while i <= width
        invariant i <= width + 1
        invariant postList == PostPositions(i, height)
      {
        var x := i as real * SHELF_W;
        var y := (MIN_HEIGHT + height as real * SHELF_H) / 2.0;
        postList := postList + [Vec3(x, y, SHELF_W / 2.0)];
        postList := postList + [Vec3(x, y, -SHELF_W / 2.0)];
        i := i + 1;
      }
    }

    /** The board loop of the constructor: a board at each of the height + 1 row boundaries. */
    static method BuildBoards(width: nat, height: nat) returns (boardList: seq<Vec3>)
      ensures boardList == BoardPositions(height + 1, width)
    {
      boardList := [];
      var j := 0;
      while j <= height
        invariant j <= height + 1
        invariant boardList == BoardPositions(j, width)
      {
        boardList := boardList + [Vec3(width as real * SHELF_W / 2.0, MIN_HEIGHT + j as real * SHELF_H, 0.0)];
        j := j + 1;
      }
    }

    /** The inner loop of the constructor: the new, empty slots of column `i`, bottom to top. */
    static method BuildColumn(i: nat, height: nat) returns (column: seq<PieceSlot>)
      ensures |column| == height
      ensures Positions(column) == ColumnPositions(i, height)
      ensures forall k :: 0 <= k < |column| ==> fresh(column[k]) && !column[k].HasPiece() && column[k].Valid()
      ensures forall a, b :: 0 <= a < b < |column| ==> column[a] != column[b]
    {
      column := [];
      var j := 0;
      while j < height
        invariant j <= height && |column| == j
        invariant forall k :: 0 <= k < j ==> column[k].position == SlotPosition(i, k)
        invariant forall k :: 0 <= k < j ==> fresh(column[k]) && !column[k].HasPiece() && column[k].Valid()
        invariant forall a, b :: 0 <= a < b < j ==> column[a] != column[b]
      {
        var slot := new PieceSlot();
        slot.position := Vec3(SHELF_W * i as real + SHELF_W / 2.0, MIN_HEIGHT + SHELF_H * j as real, 0.0);
        column := column + [slot];
        j := j + 1;
      }
    }
  }
}
