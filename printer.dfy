/**
  The printer: a job builds the piece in 5 % increments, replacing the piece in
  the printer's slot at every step, and resets its progress once it reaches
  100 %. Each timer callback of the source is an explicit call to `FireTimer`.
 */
module Printing {
  import opened Pieces
  import opened Slots

  const PROGRESS_STEP: nat := 5
  /** The number of curve samples a job uses when the caller gives none. */
  const DEFAULT_CURVE_SAMPLES: nat := 50
  /** The `type` tags of the two builders (the extrusion tag is spelled as in the geometry table). */
  const EXTRUSION: string := "excrution"
  const REVOLUTION: string := "revolution"

  predicate Supported(kind: string)
  {
    kind == EXTRUSION || kind == REVOLUTION
  }

  /**
    `createPieceGeometry`: asks the builder for the geometry at `percentage`,
    passing the argument list its `create` takes; an unknown tag is an error.
   */
  function CreatePieceGeometry(builder: GeomBuilder, height: real, width: real, resolution: nat, angle: real,
                               percentage: nat, curveSampleCount: nat): (r: Result<BuildCall>)
    ensures r.Ok? <==> Supported(builder.kind)
    ensures r.Err? ==> r.message == "Unsupported geomBuilder type: " + builder.kind
    ensures r.Ok? ==> && r.value.code == builder.code && r.value.height == height && r.value.width == width
                      && r.value.resolution == resolution && r.value.percentage == percentage
                      && (r.value.ExtrusionCall? <==> builder.kind == EXTRUSION)
    ensures r.Ok? && r.value.ExtrusionCall? ==> r.value.angle == angle && r.value.curveSampleCount == curveSampleCount
  {
    if builder.kind == EXTRUSION then
      Ok(ExtrusionCall(builder.code, height, width, resolution, angle, percentage, curveSampleCount))
    else if builder.kind == REVOLUTION then
      Ok(RevolutionCall(builder.code, height, width, resolution, percentage))
    else
      Err("Unsupported geomBuilder type: " + builder.kind)
  }

  /** The progress after a step taken at progress `p`. */
  function NextProgress(p: nat): nat
  {
    if p + PROGRESS_STEP >= 100 then 0 else p + PROGRESS_STEP
  }

  /** The percentages at which the remaining steps of a job started at progress `p` build the piece. */
  function Percentages(p: nat): seq<nat>
    decreases 100 - p
  {
    var q := p + PROGRESS_STEP;
    if q >= 100 then [q] else [q] + Percentages(q)
  }

  /** A step moves progress by 5 up to below 100, or back to 0 when it reaches 100. */
  lemma NextProgressStep(p: nat)
    requires p % PROGRESS_STEP == 0 && p < 100
    ensures var r := NextProgress(p);
            && r % PROGRESS_STEP == 0 && r < 100
            && (r == 0 <==> p == 100 - PROGRESS_STEP)
            && (r != 0 ==> r == p + PROGRESS_STEP)
  {
  }

  /** The first remaining step builds at p + 5, and the rest are those left after it. */
  lemma PercentagesStep(p: nat)
    requires p % PROGRESS_STEP == 0 && p < 100
    ensures Percentages(p)[0] == p + PROGRESS_STEP
    ensures NextProgress(p) == 0 ==> |Percentages(p)| == 1
    ensures NextProgress(p) != 0 ==> Percentages(p)[1..] == Percentages(NextProgress(p))
  {
  }

  /** From progress p the job takes (100 - p) / 5 more steps, at p + 5, p + 10, ..., 100. */
  lemma {:induction false} PercentagesOfJob(p: nat)
    requires p % PROGRESS_STEP == 0 && p < 100
    ensures |Percentages(p)| == (100 - p) / PROGRESS_STEP
    ensures forall k :: 0 <= k < |Percentages(p)| ==> Percentages(p)[k] == p + PROGRESS_STEP * (k + 1)
    decreases 100 - p
  {
    var q := p + PROGRESS_STEP;
    if q < 100 {
      PercentagesOfJob(q);
      assert Percentages(p) == [q] + Percentages(q);
      forall k | 0 <= k < |Percentages(p)|
        ensures Percentages(p)[k] == p + PROGRESS_STEP * (k + 1)
      {
        if k > 0 {
          assert Percentages(p)[k] == Percentages(q)[k - 1];
        }
      }
    }
  }

  /** A job started at rest runs exactly 20 steps, at 5, 10, ..., 100 percent. */
  lemma JobFromRest()
    ensures |Percentages(0)| == 20
    ensures forall k :: 0 <= k < 20 ==> Percentages(0)[k] == 5 * (k + 1)
    ensures Percentages(0)[19] == 100
  {
    PercentagesOfJob(0);
  }

  /** The arguments a scheduled callback repeats the step with. */
  datatype Job = Job(builder: GeomBuilder, height: real, width: real, resolution: nat, angle: real,
                     material: Material, curveSampleCount: nat)

  /** What a call did: ignored (busy), another step scheduled, the job finished, or the builder threw. */
  datatype Outcome = Ignored | Scheduled | Finished | Failed(message: string)

  class Printer {
    var pieceProgress: nat
    /** The step a pending timer callback will take, if one is scheduled. */
    var pending: Option<Job>
    const pieceSlot: PieceSlot

    /**
      Between calls progress is a multiple of 5 in [0, 95], and a callback is
      pending only in the middle of a job whose builder is supported.
     */
    ghost predicate Valid()
      reads this, pieceSlot
    {
      && pieceProgress % PROGRESS_STEP == 0 && pieceProgress < 100
      && (pending.Some? ==> 0 < pieceProgress < 100 && Supported(pending.value.builder.kind))
      && pieceSlot.Valid()
    }

    constructor()
      ensures Valid()
      ensures pieceProgress == 0 && pending == None
      ensures fresh(pieceSlot) && pieceSlot.piece == None
    {
      pieceProgress := 0;
      pending := None;
      pieceSlot := new PieceSlot();
    }

    /** `inProgress`: a job has started and not finished. */
    function InProgress(): (b: bool)
      reads this
      ensures b <==> pieceProgress != 0
      ensures Valid() && pending.Some? ==> b
    {
      pieceProgress != 0
    }

    /**
      `renderPiece`: ignored while a job is in progress, otherwise takes the
      first step of a new job; `curveSampleCount` defaults to 50.
     */
    method RenderPiece(builder: GeomBuilder, height: real, width: real, resolution: nat, angle: real,
                       material: Material, curveSampleCount: Option<nat>) returns (outcome: Outcome)
      requires Valid()
      modifies this, pieceSlot`piece, pieceSlot`children
      ensures Valid()
      ensures old(InProgress()) ==> outcome == Ignored && unchanged(this) && unchanged(pieceSlot)
      ensures !old(InProgress()) ==>
              var samples := if curveSampleCount.Some? then curveSampleCount.value else DEFAULT_CURVE_SAMPLES;
              var job := Job(builder, height, width, resolution, angle, material, samples);
              var call := CreatePieceGeometry(builder, height, width, resolution, angle, PROGRESS_STEP, samples);
              && pieceProgress == PROGRESS_STEP
              && (call.Ok? ==> outcome == Scheduled && pending == Some(job)
                               && pieceSlot.piece == Some(Piece(call.value, material)))
              && (call.Err? ==> outcome == Failed(call.message) && pending == None && unchanged(pieceSlot))
    {
      if InProgress() {
        return Ignored;
      }
      var samples := if curveSampleCount.Some? then curveSampleCount.value else DEFAULT_CURVE_SAMPLES;
      outcome := RenderPieceStep(Job(builder, height, width, resolution, angle, material, samples));
    }

    /**
      `renderPieceRecr`, one call: advance progress by 5, build the geometry at
      the new percentage and put it in the slot, then finish (progress back to
      0) or schedule the next step. A builder that throws leaves the raised
      progress and nothing scheduled; that can only happen on a job's first
      step, since later steps repeat a builder that has already succeeded.
     */
    method RenderPieceStep(job: Job) returns (outcome: Outcome)
      requires Valid() && pending == None
      requires pieceProgress == 0 || Supported(job.builder.kind)
      modifies this, pieceSlot`piece, pieceSlot`children
      ensures Valid()
      ensures var percentage := old(pieceProgress) + PROGRESS_STEP;
              var call := CreatePieceGeometry(job.builder, job.height, job.width, job.resolution, job.angle,
                                              percentage, job.curveSampleCount);
              && (call.Err? ==> outcome == Failed(call.message) && pieceProgress == PROGRESS_STEP
                                && pending == None && unchanged(pieceSlot))
              && (call.Ok? ==> && pieceSlot.piece == Some(Piece(call.value, job.material))
                               && pieceProgress == NextProgress(old(pieceProgress))
                               && (pieceProgress == 0 ==> outcome == Finished && pending == None)
                               && (pieceProgress != 0 ==> outcome == Scheduled && pending == Some(job)))
    {
      pieceProgress := pieceProgress + PROGRESS_STEP;
      var call := CreatePieceGeometry(job.builder, job.height, job.width, job.resolution, job.angle,
                                      pieceProgress, job.curveSampleCount);
      if call.Err? {
        return Failed(call.message);
      }
      pieceSlot.SetPiece(Piece(call.value, job.material));
      if pieceProgress >= 100 {
        pieceProgress := 0;
        outcome := Finished;
      } else {
        pending := Some(job);
        outcome := Scheduled;
      }
    }

    /** The scheduled callback runs: the pending job takes its next step, which cannot fail. */
    method FireTimer() returns (outcome: Outcome)
      requires Valid() && pending.Some?
      modifies this, pieceSlot`piece, pieceSlot`children
      ensures Valid()
      ensures var job := old(pending.value);
              var percentage := old(pieceProgress) + PROGRESS_STEP;
              && pieceProgress == NextProgress(old(pieceProgress))
              && pieceSlot.piece.Some?
              && pieceSlot.piece.value.material == job.material
              && pieceSlot.piece.value.geometry.code == job.builder.code
              && pieceSlot.piece.value.geometry.percentage == percentage
              && (pieceProgress == 0 ==> outcome == Finished && pending == None)
              && (pieceProgress != 0 ==> outcome == Scheduled && pending == Some(job))
      ensures var job, percentage := old(pending.value), old(pieceProgress) + PROGRESS_STEP;
              var call := CreatePieceGeometry(job.builder, job.height, job.width, job.resolution, job.angle,
                                              percentage, job.curveSampleCount);
              call.Ok? && pieceSlot.piece == Some(Piece(call.value, job.material))
    {
      var job := pending.value;
      pending := None;
      outcome := RenderPieceStep(job);
    }
  }
}
