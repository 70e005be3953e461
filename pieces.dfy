/**
  The values that move between the printer, the forklift and the shelves: a
  printed piece is a mesh made of the geometry the printer asked a builder for
  and a material.
 */
module Pieces {

  /** A builder of the geometry table: its `type` tag and the code of its curve ("A1" .. "B4"). */
  datatype GeomBuilder = GeomBuilder(kind: string, code: string)

  /**
    The geometry a builder was asked for: which `create` was called, on which
    builder, with which arguments.
   */
  datatype BuildCall =
    | ExtrusionCall(code: string, height: real, width: real, resolution: nat, angle: real,
                    percentage: nat, curveSampleCount: nat)
    | RevolutionCall(code: string, height: real, width: real, resolution: nat, percentage: nat)

  /** A material of the material table, by name. */
  datatype Material = Material(name: string)

  /** A printed piece: a mesh of a geometry and a material. */
  datatype Piece = Piece(geometry: BuildCall, material: Material)

  /** The set of pieces an optional piece stands for. */
  function Held(piece: Option<Piece>): (r: set<Piece>)
    ensures |r| <= 1
    ensures forall p :: p in r <==> piece == Some(p)
  {
    if piece.Some? then {piece.value} else {}
  }

  datatype Option<T> = None | Some(value: T)

  datatype Result<T> = Ok(value: T) | Err(message: string)
}
