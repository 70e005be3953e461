/**
  `PieceSlot`: a place that holds at most one piece, used by the printer, the
  forklift's lift plate and every shelf cell. The slot's scene-graph group is
  modelled by the set of meshes attached to it.
 */
module Slots {
  import opened Pieces
  import opened Geometry

  class PieceSlot {
    /** The piece in the slot, if any. */
    var piece: Option<Piece>
    /** The meshes attached to the slot's group. */
    var children: set<Piece>
    /** The position of the slot's group relative to its parent. */
    var position: Vec3

    /** The group holds exactly the slot's piece. */
    ghost predicate Valid()
      reads this
    {
      children == Held(piece)
    }

    /** A new slot is empty, at the origin of its parent. */
    constructor()
      ensures Valid()
      ensures piece == None && children == {} && position == Vec3(0.0, 0.0, 0.0)
    {
      piece := None;
      children := {};
      position := Vec3(0.0, 0.0, 0.0);
    }

    /** Puts `p` in the slot, detaching the piece it held before. */
    method SetPiece(p: Piece)
      modifies this`piece, this`children
      ensures piece == Some(p)
      ensures children == (old(children) - Held(old(piece))) + {p}
      ensures old(Valid()) ==> Valid()
    {
      if piece.Some? {
        children := children - {piece.value};
      }
      piece := Some(p);
      children := children + {p};
    }

    /** Empties the slot; an empty slot is left as it is. */
    method RemovePiece()
      modifies this`piece, this`children
      ensures piece == None
      ensures children == old(children) - Held(old(piece))
      ensures old(piece) == None ==> children == old(children)
      ensures old(Valid()) ==> Valid() && children == {}
    {
      if piece.Some? {
        children := children - {piece.value};
        piece := None;
      }
    }

    /** Whether the slot holds a piece. */
    function HasPiece(): (b: bool)
      reads this
      ensures b <==> piece != None
      ensures Valid() ==> (b <==> children != {})
    {
      piece.Some?
    }
  }
}
