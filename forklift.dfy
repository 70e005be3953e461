/**
  The forklift: its drive, turn and lift speeds, the lift plate's height kept
  within [LIFT_MIN, height], and the hand-off of a piece between the plate's slot
  and the nearest slot that can take or give one. Distances between slots come
  from world positions and are passed in.
 */
module Forklifts {
  import opened Pieces
  import opened Slots

  const CAR_SPEED: real := 2.0
  const LIFT_SPEED: real := 1.0
  const ROT_SPEED: real := 0.02
  const LIFT_MIN: real := 10.0
  /** Slots farther than this from the plate are out of reach. */
  const CLOSE_DIST_EPS: real := 50.0

  /**
    The lift plate's height after one `moveLift` at height `y` with speed
    `liftSpeed`: no move when stopped or already at the end it moves towards,
    otherwise the moved height clamped to [LIFT_MIN, height].
   */
  function NextLift(y: real, liftSpeed: real, height: real): (r: real)
    ensures liftSpeed == 0.0 ==> r == y
    ensures y <= LIFT_MIN && liftSpeed < 0.0 ==> r == y
    ensures y >= height && liftSpeed > 0.0 ==> r == y
    ensures LIFT_MIN <= y <= height ==> LIFT_MIN <= r <= height
    ensures r != y ==> r == LIFT_MIN || r == height || r == y + liftSpeed
  {
    if liftSpeed == 0.0 || (y <= LIFT_MIN && liftSpeed < 0.0) || (y >= height && liftSpeed > 0.0) then y
    else
      var moved := y + liftSpeed;
      if moved <= LIFT_MIN then LIFT_MIN
      else if moved >= height then height
      else moved
  }

  /** The plate's height after `n` frames at a constant lift speed. */
  function LiftAfter(y: real, liftSpeed: real, height: real, n: nat): real
  {
    if n == 0 then y else NextLift(LiftAfter(y, liftSpeed, height, n - 1), liftSpeed, height)
  }

  /** However many frames pass, a plate inside [LIFT_MIN, height] stays inside it. */
  lemma {:induction false} LiftStaysInRange(y: real, liftSpeed: real, height: real, n: nat)
    requires LIFT_MIN <= y <= height
    ensures LIFT_MIN <= LiftAfter(y, liftSpeed, height, n) <= height
  {
    if n > 0 {
      LiftStaysInRange(y, liftSpeed, height, n - 1);
    }
  }

  /**
    The first index among the first `n` whose slot is eligible and whose
    distance is strictly below every earlier eligible one's; None if no slot
    among them is eligible.
   */
  function NearestIn(eligible: seq<bool>, dist: seq<real>, n: nat): (r: Option<nat>)
    requires n <= |eligible| == |dist|
    ensures r.None? <==> forall k :: 0 <= k < n ==> !eligible[k]
    ensures r.Some? ==> r.value < n && eligible[r.value]
    ensures r.Some? ==> forall k :: 0 <= k < n && eligible[k] ==> dist[r.value] <= dist[k]
    ensures r.Some? ==> forall k :: 0 <= k < r.value && eligible[k] ==> dist[r.value] < dist[k]
  {
    if n == 0 then None
    else
      var best := NearestIn(eligible, dist, n - 1);
      if eligible[n - 1] && (best.None? || dist[n - 1] < dist[best.value]) then Some(n - 1) else best
  }

  /**
    The search loop of `handlePiece`: scans the eligible slots in order and
    keeps the first one at the smallest distance so far.
   */
  method ChooseSlot(eligible: seq<bool>, dist: seq<real>) returns (minSlot: Option<nat>)
    requires |eligible| == |dist|
    ensures minSlot == NearestIn(eligible, dist, |dist|)
  {
    minSlot := None;
    var k := 0;
    while k < |dist|
      invariant k <= |dist|
      invariant minSlot == NearestIn(eligible, dist, k)
    {
      if eligible[k] && (minSlot.None? || dist[k] < dist[minSlot.value]) {
        minSlot := Some(k);
      }
      k := k + 1;
    }
  }

  /** Which slots can take part in a hand-off with a plate whose fullness is `full`: those of the other fullness. */
  function Eligible(slots: seq<PieceSlot>, full: bool): (r: seq<bool>)
    reads slots
    ensures |r| == |slots|
    ensures forall k :: 0 <= k < |slots| ==> (r[k] <==> slots[k].HasPiece() != full)
  {
    seq(|slots|, k requires 0 <= k < |slots| reads slots => slots[k].HasPiece() != full)
  }

  /** Whether the slot chosen out of `dist` is within reach: a candidate at no more than 50. */
  predicate InReach(dist: seq<real>, chosen: Option<nat>)
  {
    chosen.Some? && chosen.value < |dist| && dist[chosen.value] <= CLOSE_DIST_EPS
  }

  class Forklift {
    const height: real
    const pieceSlot: PieceSlot
    var speed: real
    var rotSpeed: real
    var liftSpeed: real
    /** The height of the lift plate. */
    var liftY: real

    ghost predicate Valid()
      reads this, pieceSlot
    {
      LIFT_MIN <= liftY <= height && pieceSlot.Valid()
    }

    /** A new forklift stands still with its plate at the bottom of the lift; `Valid` once the lift reaches LIFT_MIN. */
    constructor(height: real)
      ensures LIFT_MIN <= height ==> Valid()
      ensures this.height == height && speed == 0.0 && rotSpeed == 0.0 && liftSpeed == 0.0
      ensures liftY == LIFT_MIN && fresh(pieceSlot) && pieceSlot.piece == None
    {
      this.height := height;
      pieceSlot := new PieceSlot();
      speed, rotSpeed, liftSpeed := 0.0, 0.0, 0.0;
      liftY := LIFT_MIN;
    }

    method StartForward()
      modifies this`speed
      ensures speed == CAR_SPEED
    {
      speed := CAR_SPEED;
    }

    method StartBackwards()
      modifies this`speed
      ensures speed == -CAR_SPEED
    {
      speed := -CAR_SPEED;
    }

    method Stop()
      modifies this`speed
      ensures speed == 0.0
    {
      speed := 0.0;
    }

    method RotateRight()
      modifies this`rotSpeed
      ensures rotSpeed == -ROT_SPEED
    {
      rotSpeed := -ROT_SPEED;
    }

    method RotateLeft()
      modifies this`rotSpeed
      ensures rotSpeed == ROT_SPEED
    {
      rotSpeed := ROT_SPEED;
    }

    method StopRot()
      modifies this`rotSpeed
      ensures rotSpeed == 0.0
    {
      rotSpeed := 0.0;
    }

    method StartLiftUp()
      modifies this`liftSpeed
      ensures liftSpeed == LIFT_SPEED
    {
      liftSpeed := LIFT_SPEED;
    }

    method StartLiftDown()
      modifies this`liftSpeed
      ensures liftSpeed == -LIFT_SPEED
    {
      liftSpeed := -LIFT_SPEED;
    }

    method StopLift()
      modifies this`liftSpeed
      ensures liftSpeed == 0.0
    {
      liftSpeed := 0.0;
    }

    /** `moveLift`: one frame of lift movement, clamped to the lift's range. */
    method MoveLift()
      modifies this`liftY
      ensures liftY == NextLift(old(liftY), liftSpeed, height)
      ensures old(Valid()) ==> Valid()
    {
      if liftSpeed == 0.0 || (liftY <= LIFT_MIN && liftSpeed < 0.0) || (liftY >= height && liftSpeed > 0.0) {
        return;
      }
      liftY := liftY + liftSpeed;
      if liftY <= LIFT_MIN {
        liftY := LIFT_MIN;
      } else if liftY >= height {
        liftY := height;
      }
    }

    /**
      `handlePiece`: among `slots` whose fullness differs from the plate's,
      picks the nearest (`dist[k]` is the distance from the plate to
      `slots[k]`); if it is within reach, the piece moves between the plate
      and that slot. No other slot changes.
     */
    method HandlePiece(slots: seq<PieceSlot>, dist: seq<real>) returns (chosen: Option<nat>)
      requires |slots| == |dist|
      modifies pieceSlot`piece, pieceSlot`children
      modifies (set k | 0 <= k < |slots| :: slots[k])`piece, (set k | 0 <= k < |slots| :: slots[k])`children
      ensures chosen == NearestIn(old(Eligible(slots, pieceSlot.HasPiece())), dist, |dist|)
      ensures !InReach(dist, chosen) ==> unchanged(pieceSlot) && forall k :: 0 <= k < |slots| ==> unchanged(slots[k])
      ensures InReach(dist, chosen) ==>
              var target := slots[chosen.value];
              && target != pieceSlot
              && target.piece == old(pieceSlot.piece) && pieceSlot.piece == old(target.piece)
              && (old(pieceSlot.Valid()) && old(target.Valid()) ==> pieceSlot.Valid() && target.Valid())
              && forall k :: 0 <= k < |slots| && slots[k] != target && slots[k] != pieceSlot ==> unchanged(slots[k])
    {
      var hasPiece := pieceSlot.HasPiece();
      var eligible := Eligible(slots, hasPiece);
      chosen := ChooseSlot(eligible, dist);
      if !InReach(dist, chosen) {
        return;
      }
      var target := slots[chosen.value];
      if hasPiece {
        target.SetPiece(pieceSlot.piece.value);
        pieceSlot.RemovePiece();
      } else {
        pieceSlot.SetPiece(target.piece.value);
        target.RemovePiece();
      }
    }
  }
}
