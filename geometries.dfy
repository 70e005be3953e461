/**
  The two mesh builders of the demo printer: a twisted extrusion, whose flat
  position / uv / index / normal buffers are laid out here quad by quad, and a
  lathe (revolution) solid, whose profile is cut to the printed prefix and whose
  uv buffer is filled here.

  Curve samples are an input sequence; the rotation about the vertical axis and
  vector normalisation are passed in as functions and left uninterpreted.
  Numbers that the source keeps in IEEE doubles are `real`s.
 */
module Geometry {
  import opened Layout

  /** A sample of a planar curve (x, y). */
  datatype Point2 = Point2(x: real, y: real)

  /** A point or direction in space. */
  datatype Vec3 = Vec3(x: real, y: real, z: real)

  /**
    The quotient num / den exactly as the builders write it for a texture
    coordinate (a denominator of 0 would be the host's NaN or infinity).
   */
  datatype Fraction = Fraction(num: nat, den: nat)

  /** Numbers per vertex in the position and normal buffers. */
  const POS_DIM: nat := 3
  /** Vertices per emitted quad. */
  const STEP_POINTS: nat := 4
  /** The value of the host language's pi constant. */
  const PI: real := 3.141592653589793

  /** The vector's three numbers, as pushed onto a flat buffer. */
  function Coords(v: Vec3): (r: seq<real>)
    ensures |r| == POS_DIM && r[0] == v.x && r[1] == v.y && r[2] == v.z
  {
    [v.x, v.y, v.z]
  }

  /** The vertex whose numbers start at offset `3 * v` of a flat buffer. */
  function VertexAt(buffer: seq<real>, v: nat): Vec3
    requires 3 * v + 3 <= |buffer|
  {
    Vec3(buffer[3 * v], buffer[3 * v + 1], buffer[3 * v + 2])
  }

  function Sub(a: Vec3, b: Vec3): Vec3
  {
    Vec3(a.x - b.x, a.y - b.y, a.z - b.z)
  }

  function Cross(a: Vec3, b: Vec3): Vec3
  {
    Vec3(a.y * b.z - a.z * b.y, a.z * b.x - a.x * b.z, a.x * b.y - a.y * b.x)
  }

  function DegToRad(degrees: real): real
  {
    degrees * (PI / 180.0)
  }

  /**
    How many of `count` layers (or profile points) are built at `percentage`
    percent: the ceiling of count * percentage / 100.
   */
  function StepCount(count: nat, percentage: nat): (r: nat)
    ensures 100 * r >= count * percentage
    ensures 100 * r < count * percentage + 100
    ensures percentage <= 100 ==> r <= count
    ensures percentage == 100 ==> r == count
    ensures count > 0 && percentage > 0 ==> r > 0
    ensures count == 0 ==> r == 0
  {
    (count * percentage + 99) / 100
  }

  /** A larger percentage never builds fewer layers. */
  lemma StepCountMonotone(count: nat, p1: nat, p2: nat)
    requires p1 <= p2
    ensures StepCount(count, p1) <= StepCount(count, p2)
  {
    MulMonotoneNat(count, p1, p2);
  }

  lemma MulMonotoneNat(a: nat, b: nat, c: nat)
    requires b <= c
    ensures a * b <= a * c
  {
    assert a * c == a * b + a * (c - b);
  }

  // ---------------------------------------------------------------------------
  // Extrusion: the geometry as a sequence of quads
  // ---------------------------------------------------------------------------

  /**
    What one extrusion sweep is built from: the sampled cross-section, the layer
    count of the full solid, the rise and the twist per layer, and the rotation
    about the vertical axis by an angle in radians.
   */
  datatype Sweep = Sweep(
    base: seq<Point2>,
    resolution: nat,
    stepSize: real,
    angleStep: real,
    rotateY: (Vec3, real) -> Vec3)

  /** The sweep of `create(height, _, resolution, angle, ...)` over `base`. */
  function ExtrusionSweep(height: real, resolution: nat, angle: real, base: seq<Point2>,
                          rotateY: (Vec3, real) -> Vec3): (sw: Sweep)
    ensures sw.base == base && sw.resolution == resolution && sw.rotateY == rotateY
    ensures resolution > 0 ==> sw.stepSize * resolution as real == height
    ensures resolution > 0 ==> sw.angleStep * resolution as real == DegToRad(angle)
  {
    // With a resolution of 0 no layer is emitted, so the two steps are never used.
    var stepSize := if resolution == 0 then 0.0 else height / resolution as real;
    var angleStep := if resolution == 0 then 0.0 else DegToRad(angle) / resolution as real;
    Sweep(base, resolution, stepSize, angleStep, rotateY)
  }

  /** Quads per layer: one between each adjacent pair of cross-section points. */
  function QuadsPerLayer(pointCount: nat): nat
  {
    if pointCount == 0 then 0 else pointCount - 1
  }

  /** A cross-section point placed at height `y` (the curve's y becomes z). */
  function Lifted(p: Point2, y: real): Vec3
  {
    Vec3(p.x, y, p.y)
  }

  /** The cross-section at height 0, untwisted. */
  function BaseRing(base: seq<Point2>): (r: seq<Vec3>)
    ensures |r| == |base|
  {
    seq(|base|, j requires 0 <= j < |base| => Lifted(base[j], 0.0))
  }

  /** `n` steps of size `x` laid end to end (`MultipleIsProduct`: n * x). */
  function Multiple(x: real, n: nat): real
  {
    if n == 0 then 0.0 else Multiple(x, n - 1) + x
  }

  lemma {:induction false} MultipleIsProduct(x: real, n: nat)
    ensures Multiple(x, n) == n as real * x
  {
    if n > 0 {
      MultipleIsProduct(x, n - 1);
    }
  }

  /** The top ring of layer `step`: raised by (step+1) steps and turned by (step+1) twists. */
  function TopRing(sw: Sweep, step: nat): (r: seq<Vec3>)
    ensures |r| == |sw.base|
  {
    var height, twist := Multiple(sw.stepSize, step + 1), Multiple(sw.angleStep, step + 1);
    seq(|sw.base|, j requires 0 <= j < |sw.base| => Placed(sw.rotateY, sw.base[j], height, twist))
  }

  /** A cross-section point raised to height `y` and turned about the y axis by `angle`. */
  function Placed(rotateY: (Vec3, real) -> Vec3, p: Point2, y: real, angle: real): Vec3
  {
    rotateY(Lifted(p, y), angle)
  }

  /**
    Point j of the top ring of layer `step` is cross-section point j placed at
    height (step + 1) * stepSize and turned about the y axis by
    (step + 1) * angleStep.
   */
  lemma TopRingAt(sw: Sweep, step: nat, j: nat)
    requires j < |sw.base|
    ensures TopRing(sw, step)[j]
            == Placed(sw.rotateY, sw.base[j], (step + 1) as real * sw.stepSize, (step + 1) as real * sw.angleStep)
  {
    MultipleIsProduct(sw.stepSize, step + 1);
    MultipleIsProduct(sw.angleStep, step + 1);
    assert Multiple(sw.stepSize, step + 1) == (step + 1) as real * sw.stepSize;
    assert Multiple(sw.angleStep, step + 1) == (step + 1) as real * sw.angleStep;
  }

  /**
    With a positive resolution the last layer's top ring stands at the full
    height, turned by the full angle.
   */
  lemma SweepReachesTop(height: real, resolution: nat, angle: real, base: seq<Point2>,
                        rotateY: (Vec3, real) -> Vec3, j: nat)
    requires 0 < resolution && j < |base|
    ensures var sw := ExtrusionSweep(height, resolution, angle, base, rotateY);
            TopRing(sw, resolution - 1)[j] == Placed(rotateY, base[j], height, DegToRad(angle))
  {
    var sw := ExtrusionSweep(height, resolution, angle, base, rotateY);
    MultipleIsProduct(sw.stepSize, resolution);
    MultipleIsProduct(sw.angleStep, resolution);
    assert Multiple(sw.stepSize, resolution) == height;
    assert Multiple(sw.angleStep, resolution) == DegToRad(angle);
    assert TopRing(sw, resolution - 1)[j]
           == Placed(sw.rotateY, sw.base[j], Multiple(sw.stepSize, resolution), Multiple(sw.angleStep, resolution));
  }

  /** The bottom ring of layer `step`: the base ring for the first layer, else the previous top. */
  function BottomRing(sw: Sweep, step: nat): (r: seq<Vec3>)
    ensures |r| == |sw.base|
  {
    if step == 0 then BaseRing(sw.base) else TopRing(sw, step - 1)
  }

  /**
    One emitted quad: its four corners (left-down, right-down, left-up, right-up)
    and the u range along the cross-section and v range along the height.
   */
  datatype Quad = Quad(ld: Vec3, rd: Vec3, lu: Vec3, ru: Vec3,
                       uLeft: Fraction, uRight: Fraction, vBot: Fraction, vTop: Fraction)

  /** Quad `i` of layer `step`. */
  function MakeQuad(sw: Sweep, step: nat, i: nat): Quad
    requires i + 1 < |sw.base|
  {
    var bottom, top := BottomRing(sw, step), TopRing(sw, step);
    var uMod, vMod := |sw.base| - 1, sw.resolution;
    Quad(bottom[i], bottom[i + 1], top[i], top[i + 1],
         Fraction(i, uMod), Fraction(i + 1, uMod), Fraction(step, vMod), Fraction(step + 1, vMod))
  }

  /** The quads of layer `step`, left to right. */
  function Layer(sw: Sweep, step: nat): (r: seq<Quad>)
    ensures |r| == QuadsPerLayer(|sw.base|)
  {
    seq(QuadsPerLayer(|sw.base|), i requires 0 <= i < QuadsPerLayer(|sw.base|) => MakeQuad(sw, step, i))
  }

  /** All quads of the first `steps` layers, layer by layer. */
  function Quads(sw: Sweep, steps: nat): (r: seq<Quad>)
    ensures |r| == Offset(QuadsPerLayer(|sw.base|), steps)
  {
    if steps == 0 then [] else Quads(sw, steps - 1) + Layer(sw, steps - 1)
  }

  // ---------------------------------------------------------------------------
  // Extrusion: the flat buffers
  // ---------------------------------------------------------------------------

  /** The corner numbers of a quad in buffer order: LD, RD, LU, RU. */
  function QuadPositions(q: Quad): (r: seq<real>)
    ensures |r| == STEP_POINTS * POS_DIM
  {
    Coords(q.ld) + Coords(q.rd) + Coords(q.lu) + Coords(q.ru)
  }

  /** The (u, v) pairs of a quad's four corners, in the same corner order. */
  function QuadUvs(q: Quad): (r: seq<Fraction>)
    ensures |r| == STEP_POINTS * 2
  {
    [q.uLeft, q.vBot, q.uRight, q.vBot, q.uLeft, q.vTop, q.uRight, q.vTop]
  }

  /** The corners of the two triangles of a quad: {LD, RD, LU} and {LU, RD, RU}. */
  const WINDING: seq<nat> := [0, 1, 2, 2, 1, 3]

  /** The six indices of quad `k`, whose vertices are 4k .. 4k+3. */
  function QuadIndices(k: nat): (r: seq<nat>)
    ensures |r| == |WINDING|
  {
    var first := STEP_POINTS * k;
    [first + 0, first + 1, first + 2, first + 2, first + 1, first + 3]
  }

  /** Each quad's two triangles follow the fixed winding over its own four vertices. */
  lemma QuadWinding(k: nat)
    ensures forall t :: 0 <= t < |WINDING| ==> QuadIndices(k)[t] == STEP_POINTS * k + WINDING[t]
  {
  }

  /** The position buffer of a run of quads: each quad's corners in turn. */
  function PositionBuffer(qs: seq<Quad>): seq<real>
  {
    if |qs| == 0 then [] else PositionBuffer(qs[..|qs| - 1]) + QuadPositions(qs[|qs| - 1])
  }

  /** The uv buffer of a run of quads. */
  function UvBuffer(qs: seq<Quad>): seq<Fraction>
  {
    if |qs| == 0 then [] else UvBuffer(qs[..|qs| - 1]) + QuadUvs(qs[|qs| - 1])
  }

  /** The index buffer of the first `quadCount` quads. */
  function IndexBuffer(quadCount: nat): seq<nat>
  {
    if quadCount == 0 then [] else IndexBuffer(quadCount - 1) + QuadIndices(quadCount - 1)
  }

  /** The flat normal of the face through a, b, c: the normalised (c - b) x (a - b). */
  function FaceNormal(a: Vec3, b: Vec3, c: Vec3, normalize: Vec3 -> Vec3): Vec3
  {
    normalize(Cross(Sub(c, b), Sub(a, b)))
  }

  /** The face normal of quad `t` of a position buffer: the normal through its first three vertices. */
  function QuadNormal(position: seq<real>, t: nat, normalize: Vec3 -> Vec3): Vec3
    requires 12 * (t + 1) <= |position|
  {
    FaceNormal(VertexAt(position, 4 * t), VertexAt(position, 4 * t + 1), VertexAt(position, 4 * t + 2), normalize)
  }

  /** The face normals of the first `quadCount` quads of a position buffer. */
  function FaceNormals(position: seq<real>, quadCount: nat, normalize: Vec3 -> Vec3): (r: seq<Vec3>)
    requires 12 * quadCount <= |position|
    ensures |r| == quadCount
  {
    if quadCount == 0 then [] else FaceNormals(position, quadCount - 1, normalize) + [QuadNormal(position, quadCount - 1, normalize)]
  }

  /** A face normal written once for each of the four corners of its quad. */
  function NormalChunk(n: Vec3): (r: seq<real>)
    ensures |r| == 12
  {
    Coords(n) + Coords(n) + Coords(n) + Coords(n)
  }

  /** The normal buffer of a run of face normals. */
  function NormalBuffer(ns: seq<Vec3>): seq<real>
  {
    if |ns| == 0 then [] else NormalBuffer(ns[..|ns| - 1]) + NormalChunk(ns[|ns| - 1])
  }

  // Each buffer grows by exactly the chunk of the quad appended last.

  lemma PositionBufferSnoc(qs: seq<Quad>, q: Quad)
    ensures PositionBuffer(qs + [q]) == PositionBuffer(qs) + QuadPositions(q)
  {
    assert (qs + [q])[..|qs|] == qs;
  }

  lemma UvBufferSnoc(qs: seq<Quad>, q: Quad)
    ensures UvBuffer(qs + [q]) == UvBuffer(qs) + QuadUvs(q)
  {
    assert (qs + [q])[..|qs|] == qs;
  }

  /** The numbers the builder pushes for quad `i` of layer `step` are that quad's chunks. */
  lemma QuadChunks(sw: Sweep, step: nat, i: nat)
    requires i + 1 < |sw.base|
    ensures var bottom, top, q := BottomRing(sw, step), TopRing(sw, step), MakeQuad(sw, step, i);
            var uMod, vMod := |sw.base| - 1, sw.resolution;
            && Coords(bottom[i]) + Coords(bottom[i + 1]) + Coords(top[i]) + Coords(top[i + 1]) == QuadPositions(q)
            && [Fraction(i, uMod), Fraction(step, vMod), Fraction(i + 1, uMod), Fraction(step, vMod),
                Fraction(i, uMod), Fraction(step + 1, vMod), Fraction(i + 1, uMod), Fraction(step + 1, vMod)]
               == QuadUvs(q)
  {
  }

  /** The quads of a layer up to and including quad `i` are those before it, then quad `i`. */
  lemma LayerPrefixSnoc(sw: Sweep, step: nat, i: nat, before: seq<Quad>)
    requires i < QuadsPerLayer(|sw.base|)
    ensures |before + Layer(sw, step)[..i]| == |before| + i
    ensures before + Layer(sw, step)[..i + 1] == (before + Layer(sw, step)[..i]) + [MakeQuad(sw, step, i)]
  {
    assert Layer(sw, step)[..i + 1] == Layer(sw, step)[..i] + [MakeQuad(sw, step, i)];
  }

  // Pushing the numbers of quad `i` of layer `step` onto the buffers of some
  // quads gives the buffers of those quads followed by that quad.

  lemma PushPositions(sw: Sweep, step: nat, i: nat, quads: seq<Quad>)
    requires i < QuadsPerLayer(|sw.base|)
    ensures var bottom, top := BottomRing(sw, step), TopRing(sw, step);
            PositionBuffer(quads) + Coords(bottom[i]) + Coords(bottom[i + 1]) + Coords(top[i]) + Coords(top[i + 1])
            == PositionBuffer(quads + [MakeQuad(sw, step, i)])
  {
    QuadChunks(sw, step, i);
    PositionBufferSnoc(quads, MakeQuad(sw, step, i));
  }

  lemma PushUvs(sw: Sweep, step: nat, i: nat, quads: seq<Quad>)
    requires i < QuadsPerLayer(|sw.base|)
    ensures var uMod, vMod := |sw.base| - 1, sw.resolution;
            UvBuffer(quads) + [Fraction(i, uMod), Fraction(step, vMod), Fraction(i + 1, uMod), Fraction(step, vMod),
                               Fraction(i, uMod), Fraction(step + 1, vMod), Fraction(i + 1, uMod), Fraction(step + 1, vMod)]
            == UvBuffer(quads + [MakeQuad(sw, step, i)])
  {
    QuadChunks(sw, step, i);
    UvBufferSnoc(quads, MakeQuad(sw, step, i));
  }

  lemma PushIndices(k: nat, first: nat)
    requires first == STEP_POINTS * k
    ensures IndexBuffer(k) + [first + 0, first + 1, first + 2, first + 2, first + 1, first + 3] == IndexBuffer(k + 1)
  {
    assert QuadIndices(k) == [first + 0, first + 1, first + 2, first + 2, first + 1, first + 3];
  }

  // ---------------------------------------------------------------------------
  // Extrusion: the builder
  // ---------------------------------------------------------------------------

  /**
    `ExcrutionGeometry.create`: sweeps the sampled cross-section `basePoints`
    up through `StepCount(resolution, percentage)` layers and lays out the
    position, uv, index and normal buffers, one quad per adjacent pair of
    points per layer. `rotateY(v, a)` turns v by a radians about the y axis.
   */
  method CreateExtrusion(height: real, resolution: nat, angle: real, percentage: nat,
                         basePoints: seq<Point2>, rotateY: (Vec3, real) -> Vec3, normalize: Vec3 -> Vec3)
    returns (position: seq<real>, uv: seq<Fraction>, index: seq<nat>, normal: seq<real>)
    ensures var quads := Quads(ExtrusionSweep(height, resolution, angle, basePoints, rotateY),
                               StepCount(resolution, percentage));
            && position == PositionBuffer(quads)
            && uv == UvBuffer(quads)
            && index == IndexBuffer(|quads|)
            && |position| == 12 * |quads|
            && normal == NormalBuffer(FaceNormals(position, |quads|, normalize))
    ensures var quadCount := StepCount(resolution, percentage) * QuadsPerLayer(|basePoints|);
            && |position| == 12 * quadCount
            && |uv| == 8 * quadCount
            && |index| == 6 * quadCount
            && |normal| == |position|
    ensures forall k :: 0 <= k < |index| ==> 3 * index[k] < |position|
  {
    var stepSize := if resolution == 0 then 0.0 else height / resolution as real;
    var angleStep := if resolution == 0 then 0.0 else DegToRad(angle) / resolution as real;
    var stepCount := StepCount(resolution, percentage);
    var sw := Sweep(basePoints, resolution, stepSize, angleStep, rotateY);
    assert sw == ExtrusionSweep(height, resolution, angle, basePoints, rotateY);

    // Position, uv and index
    position, uv, index := [], [], [];
    var bottom := BaseRing(basePoints);
    ghost var quads: seq<Quad> := [];
    var step, idx := 0, 0;
    while step < stepCount
      invariant step <= stepCount
      invariant bottom == BottomRing(sw, step)
      invariant quads == Quads(sw, step)
      invariant idx == STEP_POINTS * |quads|
      invariant position == PositionBuffer(quads) && uv == UvBuffer(quads) && index == IndexBuffer(|quads|)
    {
      var top := TopRing(sw, step);
      position, uv, index, idx := EmitLayer(sw, step, bottom, top, position, uv, index, idx, quads);
      quads := quads + Layer(sw, step);
      bottom := top;
      step := step + 1;
    }
    QuadsLength(sw, stepCount);
    PositionBufferLength(quads);
    UvBufferLength(quads);
    IndexBufferBound(|quads|);

    normal := ComputeNormals(position, |quads|, normalize);
  }

  /**
    The normal pass of `ExcrutionGeometry.create`: for every quad, the
    normalised cross product of its first three vertices, written once for
    each of its four vertices.
   */
  method ComputeNormals(position: seq<real>, ghost quadCount: nat, normalize: Vec3 -> Vec3) returns (normal: seq<real>)
    requires |position| == 12 * quadCount
    ensures normal == NormalBuffer(FaceNormals(position, quadCount, normalize))
    ensures |normal| == |position|
  {
    normal := [];
    var i := 0;
    ghost var done := 0;
    while 3 * i < |position|
      invariant done <= quadCount && i == 4 * done
      invariant normal == NormalBuffer(FaceNormals(position, done, normalize)) && |normal| == 12 * done
    {
      assert done < quadCount;
      var pA := VertexAt(position, i + 0);
      var pB := VertexAt(position, i + 1);
      var pC := VertexAt(position, i + 2);
      var n := FaceNormal(pA, pB, pC, normalize);
      assert n == QuadNormal(position, done, normalize);
      FaceNormalsSnoc(position, done, normalize);
      NormalBufferSnoc(FaceNormals(position, done, normalize), n);
      normal := normal + Coords(n) + Coords(n) + Coords(n) + Coords(n);
      i := i + STEP_POINTS;
      done := done + 1;
    }
  }

  /** One more quad appends its face normal. */
  lemma FaceNormalsSnoc(position: seq<real>, t: nat, normalize: Vec3 -> Vec3)
    requires 12 * (t + 1) <= |position|
    ensures FaceNormals(position, t + 1, normalize) == FaceNormals(position, t, normalize) + [QuadNormal(position, t, normalize)]
  {
  }

  /** One more face normal appends its chunk. */
  lemma NormalBufferSnoc(ns: seq<Vec3>, n: Vec3)
    ensures NormalBuffer(ns + [n]) == NormalBuffer(ns) + NormalChunk(n)
  {
    assert (ns + [n])[..|ns|] == ns;
  }

  /**
    The inner loop of `ExcrutionGeometry.create`: pushes the quads of layer
    `step`, between the rings `bottom` and `top`, onto the three buffers;
    `idx` is the number of vertices emitted so far.
   */
  method EmitLayer(sw: Sweep, step: nat, bottom: seq<Vec3>, top: seq<Vec3>,
                   position0: seq<real>, uv0: seq<Fraction>, index0: seq<nat>, idx0: nat, ghost before: seq<Quad>)
    returns (position: seq<real>, uv: seq<Fraction>, index: seq<nat>, idx: nat)
    requires bottom == BottomRing(sw, step) && top == TopRing(sw, step)
    requires idx0 == STEP_POINTS * |before|
    requires position0 == PositionBuffer(before) && uv0 == UvBuffer(before) && index0 == IndexBuffer(|before|)
    ensures var quads := before + Layer(sw, step);
            && idx == STEP_POINTS * |quads|
            && position == PositionBuffer(quads) && uv == UvBuffer(quads) && index == IndexBuffer(|quads|)
  {
    var pointCount, resolution := |sw.base|, sw.resolution;
    position, uv, index, idx := position0, uv0, index0, idx0;
    assert before + Layer(sw, step)[..0] == before;
    var i := 0;
    while i < pointCount - 1
      invariant i <= QuadsPerLayer(pointCount)
      invariant idx == STEP_POINTS * (|before| + i)
      invariant var quads := before + Layer(sw, step)[..i];
                position == PositionBuffer(quads) && uv == UvBuffer(quads) && index == IndexBuffer(|quads|)
    {
      position, uv, index := PushQuad(sw, step, i, bottom, top, position, uv, index, idx, before);
      i, idx := i + 1, idx + STEP_POINTS;
    }
    assert Layer(sw, step)[..i] == Layer(sw, step);
  }


  /**
    One pass of the inner loop: pushes quad `i` of layer `step` (corners LD,
    RD, LU, RU), its uv pairs and its two triangles onto the buffers of the
    quads before it.
   */
  method PushQuad(sw: Sweep, step: nat, i: nat, bottom: seq<Vec3>, top: seq<Vec3>,
                  position0: seq<real>, uv0: seq<Fraction>, index0: seq<nat>, idx: nat, ghost before: seq<Quad>)
    returns (position: seq<real>, uv: seq<Fraction>, index: seq<nat>)
    requires i < QuadsPerLayer(|sw.base|)
    requires bottom == BottomRing(sw, step) && top == TopRing(sw, step)
    requires idx == STEP_POINTS * (|before| + i)
    requires var quads := before + Layer(sw, step)[..i];
             position0 == PositionBuffer(quads) && uv0 == UvBuffer(quads) && index0 == IndexBuffer(|quads|)
    ensures var quads := before + Layer(sw, step)[..i + 1];
            position == PositionBuffer(quads) && uv == UvBuffer(quads) && index == IndexBuffer(|quads|)
  {
    ghost var quads := before + Layer(sw, step)[..i];
    LayerPrefixSnoc(sw, step, i, before);
    PushPositions(sw, step, i, quads);
    PushUvs(sw, step, i, quads);
    PushIndices(|quads|, idx);

    // Position: left down, right down, left up, right up
    position := position0 + Coords(bottom[i]) + Coords(bottom[i + 1]) + Coords(top[i]) + Coords(top[i + 1]);

    // UV: u runs along the cross-section, v up the layers
    var uLeft, uRight, uMod := i, i + 1, |sw.base| - 1;
    var vBot, vTop, vMod := step, step + 1, sw.resolution;
    uv := uv0 + [Fraction(uLeft, uMod), Fraction(vBot, vMod),    // left down
                 Fraction(uRight, uMod), Fraction(vBot, vMod),   // right down
                 Fraction(uLeft, uMod), Fraction(vTop, vMod),    // left up
                 Fraction(uRight, uMod), Fraction(vTop, vMod)];  // right up

    // Index: the triangles {LD, RD, LU} and {LU, RD, RU}
    var leftDown: nat, rightDown: nat, leftUp: nat, rightUp: nat := idx + 0, idx + 1, idx + 2, idx + 3;
    index := index0 + [leftDown, rightDown, leftUp, leftUp, rightDown, rightUp];
  }

  // ---------------------------------------------------------------------------
  // Extrusion: what the buffers hold
  // ---------------------------------------------------------------------------

  /**
    The position of quad `i` of layer `s` in the sweep's quad list: the quads of
    the `s` layers before it, then `i` (`QuadNumberIsProduct`).
   */
  function QuadNumber(sw: Sweep, s: nat, i: nat): nat
  {
    Offset(QuadsPerLayer(|sw.base|), s) + i
  }

  lemma QuadNumberIsProduct(sw: Sweep, s: nat, i: nat)
    ensures QuadNumber(sw, s, i) == s * QuadsPerLayer(|sw.base|) + i
  {
    OffsetIsProduct(QuadsPerLayer(|sw.base|), s);
  }

  /** A sweep of `steps` layers has `steps * (pointCount - 1)` quads. */
  lemma QuadsLength(sw: Sweep, steps: nat)
    ensures |Quads(sw, steps)| == Offset(QuadsPerLayer(|sw.base|), steps)
    ensures |Quads(sw, steps)| == steps * QuadsPerLayer(|sw.base|)
  {
    OffsetIsProduct(QuadsPerLayer(|sw.base|), steps);
  }

  /** Quad `i` of layer `s` is quad number `s * (pointCount - 1) + i`. */
  lemma {:induction false} QuadsAt(sw: Sweep, steps: nat, s: nat, i: nat)
    requires s < steps && i < QuadsPerLayer(|sw.base|)
    ensures QuadNumber(sw, s, i) < |Quads(sw, steps)|
    ensures Quads(sw, steps)[QuadNumber(sw, s, i)] == MakeQuad(sw, s, i)
  {
    var front := Quads(sw, steps - 1);
    assert Quads(sw, steps) == front + Layer(sw, steps - 1);
    if s < steps - 1 {
      QuadsAt(sw, steps - 1, s, i);
    } else {
      assert Quads(sw, steps)[QuadNumber(sw, s, i)] == Layer(sw, s)[i];
    }
  }

  lemma {:induction false} PositionBufferLength(qs: seq<Quad>)
    ensures |PositionBuffer(qs)| == 12 * |qs|
  {
    if |qs| > 0 {
      PositionBufferLength(qs[..|qs| - 1]);
    }
  }

  lemma {:induction false} UvBufferLength(qs: seq<Quad>)
    ensures |UvBuffer(qs)| == 8 * |qs|
  {
    if |qs| > 0 {
      UvBufferLength(qs[..|qs| - 1]);
    }
  }

  /** The index buffer has six entries per quad and every one names an emitted vertex. */
  lemma {:induction false} IndexBufferBound(quadCount: nat)
    ensures |IndexBuffer(quadCount)| == 6 * quadCount
    ensures forall k :: 0 <= k < |IndexBuffer(quadCount)| ==> IndexBuffer(quadCount)[k] < STEP_POINTS * quadCount
  {
    if quadCount > 0 {
      IndexBufferBound(quadCount - 1);
    }
  }

  lemma {:induction false} PositionBufferAt(qs: seq<Quad>, k: nat)
    requires k < |qs|
    ensures |PositionBuffer(qs)| == 12 * |qs|
    ensures PositionBuffer(qs)[12 * k..12 * k + 12] == QuadPositions(qs[k])
  {
    var n := |qs|;
    var init := qs[..n - 1];
    PositionBufferLength(qs);
    PositionBufferLength(init);
    var front := PositionBuffer(init);
    assert PositionBuffer(qs) == front + QuadPositions(qs[n - 1]);
    if k < n - 1 {
      PositionBufferAt(init, k);
      assert init[k] == qs[k];
      SliceOfFront(front, QuadPositions(qs[n - 1]), 12 * k, 12 * k + 12);
    } else {
      SliceOfBack(front, QuadPositions(qs[n - 1]), 12 * k, 12 * k + 12);
    }
  }

  lemma {:induction false} UvBufferAt(qs: seq<Quad>, k: nat)
    requires k < |qs|
    ensures |UvBuffer(qs)| == 8 * |qs|
    ensures UvBuffer(qs)[8 * k..8 * k + 8] == QuadUvs(qs[k])
  {
    var n := |qs|;
    var init := qs[..n - 1];
    UvBufferLength(qs);
    UvBufferLength(init);
    var front := UvBuffer(init);
    assert UvBuffer(qs) == front + QuadUvs(qs[n - 1]);
    if k < n - 1 {
      UvBufferAt(init, k);
      assert init[k] == qs[k];
      SliceOfFront(front, QuadUvs(qs[n - 1]), 8 * k, 8 * k + 8);
    } else {
      SliceOfBack(front, QuadUvs(qs[n - 1]), 8 * k, 8 * k + 8);
    }
  }

  lemma {:induction false} IndexBufferAt(quadCount: nat, k: nat)
    requires k < quadCount
    ensures |IndexBuffer(quadCount)| == 6 * quadCount
    ensures IndexBuffer(quadCount)[6 * k..6 * k + 6] == [4 * k, 4 * k + 1, 4 * k + 2, 4 * k + 2, 4 * k + 1, 4 * k + 3]
  {
    IndexBufferBound(quadCount);
    IndexBufferBound(quadCount - 1);
    var front := IndexBuffer(quadCount - 1);
    if k < quadCount - 1 {
      IndexBufferAt(quadCount - 1, k);
      SliceOfFront(front, QuadIndices(quadCount - 1), 6 * k, 6 * k + 6);
    } else {
      SliceOfBack(front, QuadIndices(quadCount - 1), 6 * k, 6 * k + 6);
    }
  }

  /** Every quad's two triangles in the index buffer follow the one fixed winding. */
  lemma IndexBufferWinding(quadCount: nat, k: nat)
    requires k < quadCount
    ensures |IndexBuffer(quadCount)| == 6 * quadCount
    ensures forall t :: 0 <= t < |WINDING| ==> IndexBuffer(quadCount)[6 * k + t] == STEP_POINTS * k + WINDING[t]
  {
    IndexBufferAt(quadCount, k);
    QuadWinding(k);
    var chunk := IndexBuffer(quadCount)[6 * k..6 * k + 6];
    assert chunk == QuadIndices(k);
    assert forall t :: 0 <= t < |WINDING| ==> IndexBuffer(quadCount)[6 * k + t] == chunk[t];
  }

  /** Four vertices laid out from vertex `v` on are read back as those vertices. */
  lemma FourVertices(buffer: seq<real>, v: nat, a: Vec3, b: Vec3, c: Vec3, d: Vec3)
    requires 3 * v + 12 <= |buffer|
    requires buffer[3 * v..3 * v + 12] == Coords(a) + Coords(b) + Coords(c) + Coords(d)
    ensures VertexAt(buffer, v) == a && VertexAt(buffer, v + 1) == b
    ensures VertexAt(buffer, v + 2) == c && VertexAt(buffer, v + 3) == d
  {
    var chunk := buffer[3 * v..3 * v + 12];
    assert forall t :: 0 <= t < 12 ==> buffer[3 * v + t] == chunk[t];
  }

  /** The vertices 4q .. 4q+3 of a position buffer are the corners of quad q. */
  lemma VerticesOfQuad(qs: seq<Quad>, q: nat)
    requires q < |qs|
    ensures |PositionBuffer(qs)| == 12 * |qs|
    ensures VertexAt(PositionBuffer(qs), 4 * q) == qs[q].ld && VertexAt(PositionBuffer(qs), 4 * q + 1) == qs[q].rd
    ensures VertexAt(PositionBuffer(qs), 4 * q + 2) == qs[q].lu && VertexAt(PositionBuffer(qs), 4 * q + 3) == qs[q].ru
  {
    PositionBufferAt(qs, q);
    FourVertices(PositionBuffer(qs), 4 * q, qs[q].ld, qs[q].rd, qs[q].lu, qs[q].ru);
  }

  lemma QuadCorners(sw: Sweep, s: nat, i: nat)
    requires i < QuadsPerLayer(|sw.base|)
    ensures var quad, bottom, top := MakeQuad(sw, s, i), BottomRing(sw, s), TopRing(sw, s);
            quad.ld == bottom[i] && quad.rd == bottom[i + 1] && quad.lu == top[i] && quad.ru == top[i + 1]
  {
  }

  lemma QuadUvsOf(sw: Sweep, s: nat, i: nat)
    requires i < QuadsPerLayer(|sw.base|)
    ensures var w, res := QuadsPerLayer(|sw.base|), sw.resolution;
            QuadUvs(MakeQuad(sw, s, i))
            == [Fraction(i, w), Fraction(s, res), Fraction(i + 1, w), Fraction(s, res),
                Fraction(i, w), Fraction(s + 1, res), Fraction(i + 1, w), Fraction(s + 1, res)]
  {
  }

  /** The first layer stands on the cross-section at height 0. */
  lemma FirstLayerOnBase(sw: Sweep, steps: nat, i: nat)
    requires 0 < steps && i < QuadsPerLayer(|sw.base|)
    ensures var qs := Quads(sw, steps);
            && i < |qs|
            && qs[i].ld == Vec3(sw.base[i].x, 0.0, sw.base[i].y)
            && qs[i].rd == Vec3(sw.base[i + 1].x, 0.0, sw.base[i + 1].y)
  {
    QuadsAt(sw, steps, 0, i);
    assert QuadNumber(sw, 0, i) == i;
    QuadCorners(sw, 0, i);
  }

  /**
    Consecutive layers share a ring: the bottom corners of quad i in layer s+1
    are the top corners of quad i in layer s, which sits one layer's worth of
    quads earlier.
   */
  lemma LayersShareRings(sw: Sweep, steps: nat, s: nat, i: nat)
    requires s + 1 < steps && i < QuadsPerLayer(|sw.base|)
    ensures var qs := Quads(sw, steps);
            var below, above := QuadNumber(sw, s, i), QuadNumber(sw, s + 1, i);
            && above == below + QuadsPerLayer(|sw.base|)
            && below < above < |qs|
            && qs[above].ld == qs[below].lu
            && qs[above].rd == qs[below].ru
  {
    QuadsAt(sw, steps, s, i);
    QuadsAt(sw, steps, s + 1, i);
    QuadCorners(sw, s, i);
    QuadCorners(sw, s + 1, i);
  }

  /** A uv coordinate in [0, 1]: a well-defined ratio no larger than one. */
  predicate InUnitInterval(f: Fraction)
  {
    0 < f.den && f.num <= f.den
  }

  predicate UvsInUnitInterval(q: Quad)
  {
    InUnitInterval(q.uLeft) && InUnitInterval(q.uRight) && InUnitInterval(q.vBot) && InUnitInterval(q.vTop)
  }

  lemma {:induction false} UvBufferEvery(qs: seq<Quad>)
    requires forall k :: 0 <= k < |qs| ==> UvsInUnitInterval(qs[k])
    ensures forall j :: 0 <= j < |UvBuffer(qs)| ==> InUnitInterval(UvBuffer(qs)[j])
  {
    if |qs| > 0 {
      var init := qs[..|qs| - 1];
      UvBufferEvery(init);
      var front, last := UvBuffer(init), QuadUvs(qs[|qs| - 1]);
      assert UvBuffer(qs) == front + last;
      forall j | 0 <= j < |UvBuffer(qs)|
        ensures InUnitInterval(UvBuffer(qs)[j])
      {
        if j >= |front| {
          assert UvBuffer(qs)[j] == last[j - |front|];
        }
      }
    }
  }

  /** Every uv coordinate of a sweep that stops at or below its full height lies in [0, 1]. */
  lemma UvInUnitRange(sw: Sweep, steps: nat)
    requires steps <= sw.resolution
    ensures forall j :: 0 <= j < |UvBuffer(Quads(sw, steps))| ==> InUnitInterval(UvBuffer(Quads(sw, steps))[j])
  {
    QuadsInUnitRange(sw, steps);
    UvBufferEvery(Quads(sw, steps));
  }

  lemma {:induction false} QuadsInUnitRange(sw: Sweep, steps: nat)
    requires steps <= sw.resolution
    ensures forall k :: 0 <= k < |Quads(sw, steps)| ==> UvsInUnitInterval(Quads(sw, steps)[k])
  {
    if steps > 0 {
      QuadsInUnitRange(sw, steps - 1);
      var front, layer := Quads(sw, steps - 1), Layer(sw, steps - 1);
      assert Quads(sw, steps) == front + layer;
      forall k | 0 <= k < |Quads(sw, steps)|
        ensures UvsInUnitInterval(Quads(sw, steps)[k])
      {
        if k >= |front| {
          assert Quads(sw, steps)[k] == MakeQuad(sw, steps - 1, k - |front|);
        }
      }
    }
  }

  /** With a percentage of at most 100 every extrusion uv lies in [0, 1]. */
  lemma ExtrusionUvInUnitRange(height: real, resolution: nat, angle: real, percentage: nat,
                               basePoints: seq<Point2>, rotateY: (Vec3, real) -> Vec3)
    requires percentage <= 100
    ensures var uv := UvBuffer(Quads(ExtrusionSweep(height, resolution, angle, basePoints, rotateY),
                                     StepCount(resolution, percentage)));
            forall j :: 0 <= j < |uv| ==> InUnitInterval(uv[j])
  {
    UvInUnitRange(ExtrusionSweep(height, resolution, angle, basePoints, rotateY), StepCount(resolution, percentage));
  }

  lemma {:induction false} NormalBufferLength(ns: seq<Vec3>)
    ensures |NormalBuffer(ns)| == 12 * |ns|
  {
    if |ns| > 0 {
      NormalBufferLength(ns[..|ns| - 1]);
    }
  }

  lemma {:induction false} NormalBufferAt(ns: seq<Vec3>, k: nat)
    requires k < |ns|
    ensures |NormalBuffer(ns)| == 12 * |ns|
    ensures NormalBuffer(ns)[12 * k..12 * k + 12] == NormalChunk(ns[k])
  {
    var n := |ns|;
    var init := ns[..n - 1];
    NormalBufferLength(ns);
    NormalBufferLength(init);
    var front := NormalBuffer(init);
    assert NormalBuffer(ns) == front + NormalChunk(ns[n - 1]);
    if k < n - 1 {
      NormalBufferAt(init, k);
      assert init[k] == ns[k];
      SliceOfFront(front, NormalChunk(ns[n - 1]), 12 * k, 12 * k + 12);
    } else {
      SliceOfBack(front, NormalChunk(ns[n - 1]), 12 * k, 12 * k + 12);
    }
  }

  /** Face normal t is the normal of quad t's first three vertices. */
  lemma {:induction false} FaceNormalsAt(position: seq<real>, quadCount: nat, t: nat, normalize: Vec3 -> Vec3)
    requires 12 * quadCount <= |position| && t < quadCount
    ensures FaceNormals(position, quadCount, normalize)[t] == QuadNormal(position, t, normalize)
  {
    if t < quadCount - 1 {
      FaceNormalsAt(position, quadCount - 1, t, normalize);
    }
  }

  /**
    The normals of quad t sit at the offsets of its four vertices, and all four
    are the face normal of the quad's first three vertices.
   */
  lemma NormalLayout(position: seq<real>, quadCount: nat, t: nat, normalize: Vec3 -> Vec3)
    requires 12 * quadCount <= |position| && t < quadCount
    ensures var normal := NormalBuffer(FaceNormals(position, quadCount, normalize));
            var n := FaceNormal(VertexAt(position, 4 * t), VertexAt(position, 4 * t + 1),
                                VertexAt(position, 4 * t + 2), normalize);
            && |normal| == 12 * quadCount
            && VertexAt(normal, 4 * t) == n && VertexAt(normal, 4 * t + 1) == n
            && VertexAt(normal, 4 * t + 2) == n && VertexAt(normal, 4 * t + 3) == n
  {
    var ns := FaceNormals(position, quadCount, normalize);
    var normal := NormalBuffer(ns);
    NormalBufferAt(ns, t);
    FaceNormalsAt(position, quadCount, t, normalize);
    var n := QuadNormal(position, t, normalize);
    FourVertices(normal, 4 * t, n, n, n, n);
  }

  // ---------------------------------------------------------------------------
  // Revolution
  // ---------------------------------------------------------------------------

  /** The smaller of two naturals, as a slice end is cut to the sequence's length. */
  function Min(a: nat, b: nat): (r: nat)
    ensures r <= a && r <= b && (r == a || r == b)
  {
    if a <= b then a else b
  }

  /** The divisor of the v coordinate: one less than the profile's point count. */
  function LastPoint(pointCount: nat): nat
  {
    if pointCount == 0 then 0 else pointCount - 1
  }

  /** Row `i` of the revolution uv buffer up to column `columns`: (i / segments, j / den) per column j. */
  function RevolutionRow(i: nat, segments: nat, columns: nat, den: nat): (r: seq<Fraction>)
    ensures |r| == 2 * columns
  {
    if columns == 0 then []
    else RevolutionRow(i, segments, columns - 1, den) + [Fraction(i, segments), Fraction(columns - 1, den)]
  }

  /** The revolution uv buffer: `rows` rows of `columns` (u, v) pairs, row after row. */
  function RevolutionUv(rows: nat, segments: nat, columns: nat, den: nat): (r: seq<Fraction>)
    ensures |r| == Offset(2 * columns, rows)
  {
    if rows == 0 then [] else RevolutionUv(rows - 1, segments, columns, den) + RevolutionRow(rows - 1, segments, columns, den)
  }

  /**
    `RevolutionGeometry.create`, given the sampled profile `points`: the lathe
    profile is the first `ceil(|points| * percentage / 100)` points (cut to the
    profile, as a slice is), the lathe has one segment per point, and the uv
    buffer holds (i / segments, j / (|points| - 1)) for i in 0 .. segments and
    j over the kept points.
   */
  method CreateRevolution(points: seq<Point2>, percentage: nat)
    returns (geomPoints: seq<Point2>, segments: nat, uv: seq<Fraction>)
    ensures geomPoints == points[..Min(StepCount(|points|, percentage), |points|)]
    ensures segments == |points|
    ensures uv == RevolutionUv(|points| + 1, |points|, StepCount(|points|, percentage), LastPoint(|points|))
  {
    var pointCount := |points|;
    var stepCount := StepCount(pointCount, percentage);
    geomPoints := points[..Min(stepCount, pointCount)];
    segments := pointCount;

    uv := [];
    var i := 0;
    while i <= segments
      invariant i <= segments + 1
      invariant uv == RevolutionUv(i, segments, stepCount, LastPoint(pointCount))
    {
      var j := 0;
      while j < stepCount
        invariant j <= stepCount
        invariant uv == RevolutionUv(i, segments, stepCount, LastPoint(pointCount)) + RevolutionRow(i, segments, j, LastPoint(pointCount))
      {
        uv := uv + [Fraction(i, segments), Fraction(j, pointCount - 1)];
        j := j + 1;
      }
      i := i + 1;
    }
  }

  lemma {:induction false} RevolutionRowAt(i: nat, segments: nat, columns: nat, den: nat, j: nat)
    requires j < columns
    ensures RevolutionRow(i, segments, columns, den)[2 * j] == Fraction(i, segments)
    ensures RevolutionRow(i, segments, columns, den)[2 * j + 1] == Fraction(j, den)
  {
    if j < columns - 1 {
      RevolutionRowAt(i, segments, columns - 1, den, j);
    }
  }

  /**
    The revolution uv buffer has 2 * columns numbers per row, and the pair for
    row i, column j sits at Offset(2 * columns, i) + 2 * j, which is
    2 * (columns * i + j): u = i / segments, v = j / den.
   */
  lemma {:induction false} RevolutionUvAt(rows: nat, segments: nat, columns: nat, den: nat, i: nat, j: nat)
    requires i < rows && j < columns
    ensures var uv, width := RevolutionUv(rows, segments, columns, den), 2 * columns;
            && |uv| == Offset(width, rows)
            && Offset(width, i) + 2 * j + 1 < |uv|
            && uv[Offset(width, i) + 2 * j] == Fraction(i, segments)
            && uv[Offset(width, i) + 2 * j + 1] == Fraction(j, den)
    decreases rows
  {
    var width := 2 * columns;
    var front := RevolutionUv(rows - 1, segments, columns, den);
    var row := RevolutionRow(i, segments, columns, den);
    if i < rows - 1 {
      RevolutionUvAt(rows - 1, segments, columns, den, i, j);
      OffsetMonotone(width, i, rows - 1);
    } else {
      assert RevolutionUv(rows, segments, columns, den) == front + row;
      RevolutionRowAt(i, segments, columns, den, j);
    }
  }

  /**
    The lathe profile is a prefix of the sampled profile: the whole of it at
    100 percent, and exactly `StepCount` points whenever the percentage is at
    most 100.
   */
  lemma LatheProfile(points: seq<Point2>, percentage: nat)
    ensures var kept := Min(StepCount(|points|, percentage), |points|);
            && points[..kept] <= points
            && (percentage <= 100 ==> kept == StepCount(|points|, percentage))
            && (percentage == 100 ==> points[..kept] == points)
  {
  }

  /** A revolution at `percentage` yields 2 * (segments + 1) * stepCount uv numbers. */
  lemma RevolutionUvLength(pointCount: nat, percentage: nat)
    ensures |RevolutionUv(pointCount + 1, pointCount, StepCount(pointCount, percentage), LastPoint(pointCount))|
            == 2 * StepCount(pointCount, percentage) * (pointCount + 1)
  {
    var columns := StepCount(pointCount, percentage);
    OffsetIsProduct(2 * columns, pointCount + 1);
  }
}
