/**
  The wiring of the demo that the model keeps: the slots the forklift may use,
  and the key that makes it hand a piece over.
 */
module App {
  import opened Pieces
  import opened Slots
  import opened Printing
  import opened Forklifts
  import opened Shelving

  /**
    `availableSlots`: every shelf slot, followed by the printer's slot unless
    the printer is in the middle of a job.
   */
  function AvailableSlots(printer: Printer, shelves: Shelves): (r: seq<PieceSlot>)
    reads printer, shelves
    ensures |shelves.slots| <= |r| && r[..|shelves.slots|] == shelves.slots
    ensures printer.InProgress() ==> r == shelves.slots
    ensures !printer.InProgress() ==> |r| == |shelves.slots| + 1 && r[|shelves.slots|] == printer.pieceSlot
  {
    if printer.InProgress() then shelves.slots else shelves.slots + [printer.pieceSlot]
  }

  /**
    The hand-off key: the forklift hands a piece to, or takes one from, the
    nearest available slot. `dist[k]` is the distance from the lift plate to
    the k-th available slot. While the printer is busy its slot is left alone.
   */
  method HandOff(forklift: Forklift, printer: Printer, shelves: Shelves, dist: seq<real>)
      returns (chosen: Option<nat>)
    requires |dist| == |AvailableSlots(printer, shelves)|
    requires printer.pieceSlot != forklift.pieceSlot && printer.pieceSlot !in shelves.slots
    modifies forklift.pieceSlot`piece, forklift.pieceSlot`children
    modifies (set k | 0 <= k < |AvailableSlots(printer, shelves)| :: AvailableSlots(printer, shelves)[k])`piece
    modifies (set k | 0 <= k < |AvailableSlots(printer, shelves)| :: AvailableSlots(printer, shelves)[k])`children
    ensures chosen == NearestIn(old(Eligible(AvailableSlots(printer, shelves), forklift.pieceSlot.HasPiece())), dist, |dist|)
    ensures var slots := old(AvailableSlots(printer, shelves));
            !InReach(dist, chosen) ==>
              unchanged(forklift.pieceSlot) && forall k :: 0 <= k < |slots| ==> unchanged(slots[k])
    ensures var slots := old(AvailableSlots(printer, shelves));
            InReach(dist, chosen) ==>
              var target := slots[chosen.value];
              && target != forklift.pieceSlot
              && target.piece == old(forklift.pieceSlot.piece) && forklift.pieceSlot.piece == old(target.piece)
              && (old(forklift.pieceSlot.Valid()) && old(target.Valid()) ==> forklift.pieceSlot.Valid() && target.Valid())
              && forall k :: 0 <= k < |slots| && slots[k] != target && slots[k] != forklift.pieceSlot ==> unchanged(slots[k])
    ensures old(printer.InProgress()) ==> unchanged(printer.pieceSlot)
  {
    var slots := AvailableSlots(printer, shelves);
    chosen := forklift.HandlePiece(slots, dist);
  }
}
