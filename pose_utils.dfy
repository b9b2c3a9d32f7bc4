/**
 * The pose-similarity gate of the try-on app (src/poseUtils.js).
 *
 * A pose is the keypoint list produced by the pose estimator.  Two poses are
 * compared by first normalizing each one into a shoulder frame (left shoulder
 * at the origin, shoulder width 1), then taking a weighted mean of the
 * distances between the keypoints that are confident in both poses, and the
 * mean difference of four shoulder/elbow joint angles.
 *
 * Positions are real numbers.  `Math.sqrt` and `Math.atan2` are not defined
 * here: a `MathLib` value supplies them, and the laws the proofs need are
 * stated as predicates on it.
 */
module PoseUtils {
  import opened Wrappers
  import opened RealFacts

  datatype Position = Position(x: real, y: real)

  datatype Keypoint = Keypoint(part: string, position: Position, score: real)

  /** An estimated pose: an overall score and the ordered keypoint list. */
  datatype Pose = Pose(score: real, keypoints: seq<Keypoint>)

  /**
   * The two numeric primitives the comparison calls: `sqrt` is `Math.sqrt`,
   * and `atan2Deg(y, x)` is `Math.atan2(y, x)` converted to degrees.
   */
  datatype MathLib = MathLib(sqrt: real -> real, atan2Deg: (real, real) -> real)

  /** `sqrt` returns the non-negative square root of a non-negative number. */
  ghost predicate SqrtLaws(m: MathLib) {
    forall v :: 0.0 <= v ==> 0.0 <= m.sqrt(v) && Sq(m.sqrt(v)) == v
  }

  /** `atan2`, in degrees, lies in [-180, 180]. */
  ghost predicate Atan2Laws(m: MathLib) {
    forall y, x :: -180.0 <= m.atan2Deg(y, x) <= 180.0
  }

  const LeftShoulder := "leftShoulder"
  const RightShoulder := "rightShoulder"

  /** A keypoint takes part in a comparison only when its score exceeds this. */
  const MinScore: real := 0.5
  const DistanceThreshold: real := 0.4
  const AngleThreshold: real := 12.0

  /** Importance of each body part, in the order the distance pass visits them. */
  const KeypointWeights: seq<(string, nat)> := [
    ("nose", 1), ("leftEye", 1), ("rightEye", 1), ("leftEar", 1), ("rightEar", 1),
    ("leftShoulder", 2), ("rightShoulder", 2), ("leftElbow", 3), ("rightElbow", 3),
    ("leftWrist", 4), ("rightWrist", 4), ("leftHip", 1), ("rightHip", 1),
    ("leftKnee", 1), ("rightKnee", 1), ("leftAnkle", 1), ("rightAnkle", 1)
  ]

  /** The joints whose angles are compared: (first, vertex, last). */
  const JointTriples: seq<(string, string, string)> := [
    ("leftShoulder", "leftElbow", "leftWrist"),
    ("rightShoulder", "rightElbow", "rightWrist"),
    ("leftElbow", "leftShoulder", "leftHip"),
    ("rightElbow", "rightShoulder", "rightHip")
  ]

  function Abs(v: real): real {
    if v < 0.0 then -v else v
  }

  // ---------------------------------------------------------------------
  // Keypoint lookup
  // ---------------------------------------------------------------------

  /** The first keypoint naming `part`, as `Array.prototype.find` returns it. */
  function Find(keypoints: seq<Keypoint>, part: string): Option<Keypoint> {
    if keypoints == [] then None
    else if keypoints[0].part == part then Some(keypoints[0])
    else Find(keypoints[1..], part)
  }

  /**
   * `Find` answers `None` exactly when no keypoint names the part, and
   * otherwise the keypoint at the first index that names it.
   */
  lemma {:induction false} FindIsFirstMatch(keypoints: seq<Keypoint>, part: string)
    ensures Find(keypoints, part).None? <==> forall i :: 0 <= i < |keypoints| ==> keypoints[i].part != part
    ensures Find(keypoints, part).Some? ==>
              exists i :: 0 <= i < |keypoints| && keypoints[i] == Find(keypoints, part).value
                          && keypoints[i].part == part
                          && forall j :: 0 <= j < i ==> keypoints[j].part != part
  {
    if keypoints != [] && keypoints[0].part != part {
      var rest := keypoints[1..];
      FindIsFirstMatch(rest, part);
      if Find(rest, part).Some? {
        var i :| 0 <= i < |rest| && rest[i] == Find(rest, part).value && rest[i].part == part
                 && forall j :: 0 <= j < i ==> rest[j].part != part;
        assert keypoints[i + 1] == rest[i];
        forall j | 0 <= j < i + 1
          ensures keypoints[j].part != part
        {
          if j > 0 { assert keypoints[j] == rest[j - 1]; }
        }
      } else {
        forall i | 0 <= i < |keypoints|
          ensures keypoints[i].part != part
        {
          if i > 0 { assert keypoints[i] == rest[i - 1]; }
        }
      }
    }
  }

  function GetKeypoint(pose: Pose, part: string): Option<Keypoint> {
    Find(pose.keypoints, part)
  }

  /** Present and scored above `MinScore`. */
  predicate Confident(k: Option<Keypoint>) {
    k.Some? && k.value.score > MinScore
  }

  // ---------------------------------------------------------------------
  // Geometry
  // ---------------------------------------------------------------------

  /** Euclidean distance, through the supplied square root. */
  function Distance(m: MathLib, a: Position, b: Position): real {
    m.sqrt(Sq(a.x - b.x) + Sq(a.y - b.y))
  }

  /**
   * The included angle at `p2` between the rays to `p1` and `p3`, in degrees,
   * folded into [0, 180].
   */
  function CalculateAngle(m: MathLib, p1: Position, p2: Position, p3: Position): (r: real)
    requires Atan2Laws(m)
    ensures 0.0 <= r <= 180.0
  {
    var angle := m.atan2Deg(p3.y - p2.y, p3.x - p2.x) - m.atan2Deg(p1.y - p2.y, p1.x - p2.x);
    var angleDegrees := Abs(angle);
    if angleDegrees > 180.0 then 360.0 - angleDegrees else angleDegrees
  }

  lemma SqrtOfZero(m: MathLib)
    requires SqrtLaws(m)
    ensures m.sqrt(0.0) == 0.0
  {
    SquareSign(m.sqrt(0.0));
  }

  lemma SqrtOfOne(m: MathLib)
    requires SqrtLaws(m)
    ensures m.sqrt(1.0) == 1.0
  {
    SquareInjective(m.sqrt(1.0), 1.0);
  }

  lemma DistanceSymmetric(m: MathLib, a: Position, b: Position)
    ensures Distance(m, a, b) == Distance(m, b, a)
  {
    SquareOfDifference(a.x, b.x);
    SquareOfDifference(a.y, b.y);
  }

  lemma DistanceIsZeroIff(m: MathLib, a: Position, b: Position)
    requires SqrtLaws(m)
    ensures Distance(m, a, b) == 0.0 <==> a == b
  {
    var sum := Sq(a.x - b.x) + Sq(a.y - b.y);
    SumOfSquaresSign(a.x - b.x, a.y - b.y);
    SquareSign(m.sqrt(sum));
    SqrtOfZero(m);
  }

  // ---------------------------------------------------------------------
  // Normalization
  // ---------------------------------------------------------------------

  /** Applies `f` to every keypoint's position, keeping order, parts and scores. */
  function MapPositions(keypoints: seq<Keypoint>, f: Position -> Position): (r: seq<Keypoint>)
    ensures |r| == |keypoints|
    ensures forall i :: 0 <= i < |keypoints| ==> r[i] == keypoints[i].(position := f(keypoints[i].position))
  {
    if keypoints == [] then []
    else [keypoints[0].(position := f(keypoints[0].position))] + MapPositions(keypoints[1..], f)
  }

  lemma {:induction false} FindMapped(keypoints: seq<Keypoint>, part: string, f: Position -> Position)
    ensures Find(MapPositions(keypoints, f), part)
         == match Find(keypoints, part)
            case None => None
            case Some(k) => Some(k.(position := f(k.position)))
  {
    if keypoints != [] {
      assert MapPositions(keypoints, f)[1..] == MapPositions(keypoints[1..], f);
      FindMapped(keypoints[1..], part, f);
    }
  }

  /** The position in the frame with origin `origin` and unit length `scale`. */
  function ToFrame(p: Position, origin: Position, scale: real): Position
    requires scale != 0.0
  {
    Position((p.x - origin.x) / scale, (p.y - origin.y) / scale)
  }

  /** Both shoulders are present and lie at different positions. */
  predicate HasDistinctShoulders(pose: Pose) {
    var left := GetKeypoint(pose, LeftShoulder);
    var right := GetKeypoint(pose, RightShoulder);
    left.Some? && right.Some? && left.value.position != right.value.position
  }

  /** The shoulder-to-shoulder distance of a pose that has both shoulders. */
  function ShoulderDistance(m: MathLib, pose: Pose): real
    requires GetKeypoint(pose, LeftShoulder).Some? && GetKeypoint(pose, RightShoulder).Some?
  {
    Distance(m, GetKeypoint(pose, LeftShoulder).value.position, GetKeypoint(pose, RightShoulder).value.position)
  }

  /**
   * Translates the pose so that its (first) left shoulder is the origin and
   * divides every coordinate by the shoulder-to-shoulder distance; `None`
   * when a shoulder is missing or the distance is 0.
   */
  function NormalizePose(m: MathLib, pose: Pose): (r: Option<Pose>)
    ensures r.Some? ==> r.value.score == pose.score && |r.value.keypoints| == |pose.keypoints|
    ensures r.Some? ==> forall i :: 0 <= i < |pose.keypoints| ==>
                          r.value.keypoints[i].part == pose.keypoints[i].part
                          && r.value.keypoints[i].score == pose.keypoints[i].score
  {
    var left := GetKeypoint(pose, LeftShoulder);
    var right := GetKeypoint(pose, RightShoulder);
    if left.None? || right.None? then None
    else
      var shoulderDist := Distance(m, left.value.position, right.value.position);
      if shoulderDist == 0.0 then None
      else
        var origin := left.value.position;
        Some(pose.(keypoints := MapPositions(pose.keypoints, p => ToFrame(p, origin, shoulderDist))))
  }

  /** Looking a part up in the normalized pose finds the same keypoint, moved into the shoulder frame. */
  lemma NormalizedLookup(m: MathLib, pose: Pose, part: string)
    requires NormalizePose(m, pose).Some?
    ensures GetKeypoint(pose, LeftShoulder).Some? && GetKeypoint(pose, RightShoulder).Some?
    ensures ShoulderDistance(m, pose) != 0.0
    ensures GetKeypoint(NormalizePose(m, pose).value, part)
            == match GetKeypoint(pose, part)
               case None => None
               case Some(k) => Some(k.(position := ToFrame(k.position, GetKeypoint(pose, LeftShoulder).value.position,
                                                           ShoulderDistance(m, pose))))
  {
    var origin := GetKeypoint(pose, LeftShoulder).value.position;
    var scale := ShoulderDistance(m, pose);
    FindMapped(pose.keypoints, part, p => ToFrame(p, origin, scale));
  }

  /** Normalization keeps every part's presence and score, so confidence is unchanged. */
  lemma NormalizeKeepsConfidence(m: MathLib, pose: Pose, part: string)
    requires NormalizePose(m, pose).Some?
    ensures Confident(GetKeypoint(NormalizePose(m, pose).value, part)) == Confident(GetKeypoint(pose, part))
  {
    NormalizedLookup(m, pose, part);
  }

  /** Normalization fails exactly when a shoulder is missing or the two shoulders coincide. */
  lemma NormalizeFailsExactly(m: MathLib, pose: Pose)
    requires SqrtLaws(m)
    ensures NormalizePose(m, pose).None? <==> !HasDistinctShoulders(pose)
  {
    var left := GetKeypoint(pose, LeftShoulder);
    var right := GetKeypoint(pose, RightShoulder);
    if left.Some? && right.Some? {
      DistanceIsZeroIff(m, left.value.position, right.value.position);
    }
  }

  /**
   * In the normalized pose the left shoulder is at the origin and the right
   * shoulder is at Euclidean distance 1 from it.
   */
  lemma NormalizeShoulderFrame(m: MathLib, pose: Pose)
    requires SqrtLaws(m)
    requires NormalizePose(m, pose).Some?
    ensures var n := NormalizePose(m, pose).value;
            GetKeypoint(n, LeftShoulder).Some? && GetKeypoint(n, RightShoulder).Some?
            && GetKeypoint(n, LeftShoulder).value.position == Position(0.0, 0.0)
            && Distance(m, Position(0.0, 0.0), GetKeypoint(n, RightShoulder).value.position) == 1.0
  {
    NormalizedLookup(m, pose, LeftShoulder);
    NormalizedLookup(m, pose, RightShoulder);
    var l := GetKeypoint(pose, LeftShoulder).value.position;
    var r := GetKeypoint(pose, RightShoulder).value.position;
    UnitShoulderFrame(m, l, r);
  }

  /** Seen from `l` in units of |lr|, `l` is the origin and `r` lies on the unit circle. */
  lemma UnitShoulderFrame(m: MathLib, l: Position, r: Position)
    requires SqrtLaws(m)
    requires Distance(m, l, r) != 0.0
    ensures ToFrame(l, l, Distance(m, l, r)) == Position(0.0, 0.0)
    ensures Distance(m, Position(0.0, 0.0), ToFrame(r, l, Distance(m, l, r))) == 1.0
  {
    var d := Distance(m, l, r);
    var dx, dy := r.x - l.x, r.y - l.y;
    var nx, ny := dx / d, dy / d;
    assert Sq(d) == Sq(dx) + Sq(dy) by {
      SumOfSquaresSign(l.x - r.x, l.y - r.y);
      SquareOfDifference(l.x, r.x);
      SquareOfDifference(l.y, r.y);
    }
    SquareSign(d);
    SquareOfQuotient(dx, d);
    SquareOfQuotient(dy, d);
    SharesOfWhole(Sq(nx), Sq(ny), Sq(d), Sq(dx), Sq(dy));
    SquareOfDifference(0.0, nx);
    SquareOfDifference(0.0, ny);
    SqrtOfOne(m);
  }

  // ---------------------------------------------------------------------
  // Translating and scaling a pose
  // ---------------------------------------------------------------------

  /** `pose` moved by (dx, dy). */
  function TranslatePose(pose: Pose, dx: real, dy: real): Pose {
    pose.(keypoints := MapPositions(pose.keypoints, (p: Position) => Position(p.x + dx, p.y + dy)))
  }

  /** `pose` with every coordinate multiplied by `k`. */
  function ScalePose(pose: Pose, k: real): Pose {
    pose.(keypoints := MapPositions(pose.keypoints, (p: Position) => Position(k * p.x, k * p.y)))
  }

  /** Moving a whole pose does not change its normalized form. */
  lemma NormalizeTranslationInvariant(m: MathLib, pose: Pose, dx: real, dy: real)
    ensures NormalizePose(m, TranslatePose(pose, dx, dy)) == NormalizePose(m, pose)
  {
    var shift := (p: Position) => Position(p.x + dx, p.y + dy);
    var moved := TranslatePose(pose, dx, dy);
    FindMapped(pose.keypoints, LeftShoulder, shift);
    FindMapped(pose.keypoints, RightShoulder, shift);
    var left := GetKeypoint(pose, LeftShoulder);
    var right := GetKeypoint(pose, RightShoulder);
    if left.Some? && right.Some? {
      var l, r := left.value.position, right.value.position;
      assert GetKeypoint(moved, LeftShoulder).value.position == shift(l);
      assert GetKeypoint(moved, RightShoulder).value.position == shift(r);
      assert Distance(m, shift(l), shift(r)) == Distance(m, l, r) by {
        assert shift(l).x - shift(r).x == l.x - r.x && shift(l).y - shift(r).y == l.y - r.y;
      }
      var d := Distance(m, l, r);
      if d != 0.0 {
        var n := MapPositions(pose.keypoints, p => ToFrame(p, l, d));
        var n' := MapPositions(moved.keypoints, p => ToFrame(p, shift(l), d));
        assert NormalizePose(m, pose) == Some(pose.(keypoints := n));
        assert NormalizePose(m, moved) == Some(moved.(keypoints := n'));
        forall i | 0 <= i < |pose.keypoints|
          ensures n'[i] == n[i]
        {
          var q := pose.keypoints[i].position;
          assert shift(q).x - shift(l).x == q.x - l.x && shift(q).y - shift(l).y == q.y - l.y;
        }
        assert n' == n;
      }
    }
  }

  /** sqrt(k^2 * s) == |k| * sqrt(s), for `p` the product k^2 * s. */
  lemma SqrtOfScaled(m: MathLib, k: real, s: real, p: real)
    requires SqrtLaws(m) && s >= 0.0 && p == Sq(k) * s
    ensures m.sqrt(p) == Abs(k) * m.sqrt(s)
  {
    SquareSign(k);
    ProductNonNegative(Sq(k), s, p);
    var root := m.sqrt(s);
    var lhs := m.sqrt(p);
    assert Sq(root) == s;
    ProductNonNegative(Abs(k), root, Abs(k) * root);
    SquareOfProduct(Abs(k), root);
    assert Sq(Abs(k)) == Sq(k);
    SquareInjective(lhs, Abs(k) * root);
  }

  /** Scaling both points by `k` scales their distance by |k|. */
  lemma DistanceScaled(m: MathLib, a: Position, b: Position, k: real)
    requires SqrtLaws(m)
    ensures Distance(m, Position(k * a.x, k * a.y), Position(k * b.x, k * b.y)) == Abs(k) * Distance(m, a, b)
  {
    var dx, dy := a.x - b.x, a.y - b.y;
    assert k * a.x - k * b.x == k * dx && k * a.y - k * b.y == k * dy;
    ScaledSumOfSquares(k, dx, dy);
    SumOfSquaresSign(dx, dy);
    var a', b' := Position(k * a.x, k * a.y), Position(k * b.x, k * b.y);
    SqrtOfScaled(m, k, Sq(dx) + Sq(dy), Sq(a'.x - b'.x) + Sq(a'.y - b'.y));
  }

  /**
   * Scaling a pose by k != 0 leaves its normalized form unchanged when k > 0
   * and mirrors it through the origin when k < 0.
   */
  lemma NormalizeScaled(m: MathLib, pose: Pose, k: real)
    requires SqrtLaws(m)
    requires k != 0.0
    ensures NormalizePose(m, ScalePose(pose, k))
            == match NormalizePose(m, pose)
               case None => None
               case Some(n) => Some(if k > 0.0 then n else ScalePose(n, -1.0))
  {
    var scaled := ScalePose(pose, k);
    var left := GetKeypoint(pose, LeftShoulder);
    var right := GetKeypoint(pose, RightShoulder);
    ScaledShoulders(m, pose, k);
    if left.Some? && right.Some? {
      var l := left.value.position;
      var d := Distance(m, l, right.value.position);
      if d != 0.0 {
        var l' := GetKeypoint(scaled, LeftShoulder).value.position;
        var d' := Distance(m, l', GetKeypoint(scaled, RightShoulder).value.position);
        ScaledFrames(pose.keypoints, l, d, k, l', d');
        var n := pose.(keypoints := MapPositions(pose.keypoints, p => ToFrame(p, l, d)));
        assert NormalizePose(m, pose) == Some(n);
        assert NormalizePose(m, scaled) == Some(scaled.(keypoints := MapPositions(scaled.keypoints, p => ToFrame(p, l', d'))));
      }
    }
  }

  /**
   * Moving a pose and enlarging or shrinking it (k > 0) does not change how it
   * compares with any other pose.
   */
  lemma ComparisonIgnoresPlacement(m: MathLib, pose: Pose, other: Option<Pose>, dx: real, dy: real, k: real)
    requires SqrtLaws(m) && Atan2Laws(m)
    requires k > 0.0
    ensures PosesSimilar(m, Some(ScalePose(TranslatePose(pose, dx, dy), k)), other) == PosesSimilar(m, Some(pose), other)
  {
    NormalizeTranslationInvariant(m, pose, dx, dy);
    NormalizeScaled(m, TranslatePose(pose, dx, dy), k);
  }

  /** The shoulders of a scaled pose, and the distance between them. */
  lemma ScaledShoulders(m: MathLib, pose: Pose, k: real)
    requires SqrtLaws(m)
    ensures var left, right := GetKeypoint(pose, LeftShoulder), GetKeypoint(pose, RightShoulder);
            var left', right' := GetKeypoint(ScalePose(pose, k), LeftShoulder), GetKeypoint(ScalePose(pose, k), RightShoulder);
            left'.Some? == left.Some? && right'.Some? == right.Some?
            && (left.Some? ==> left'.value.position == Position(k * left.value.position.x, k * left.value.position.y))
            && (left.Some? && right.Some? ==>
                  Distance(m, left'.value.position, right'.value.position)
                  == Abs(k) * Distance(m, left.value.position, right.value.position))
  {
    var scale := (p: Position) => Position(k * p.x, k * p.y);
    FindMapped(pose.keypoints, LeftShoulder, scale);
    FindMapped(pose.keypoints, RightShoulder, scale);
    var left, right := GetKeypoint(pose, LeftShoulder), GetKeypoint(pose, RightShoulder);
    if left.Some? {
      assert scale(left.value.position) == Position(k * left.value.position.x, k * left.value.position.y);
    }
    if right.Some? {
      assert scale(right.value.position) == Position(k * right.value.position.x, k * right.value.position.y);
    }
    if left.Some? && right.Some? {
      var scaled := ScalePose(pose, k);
      DistanceOfScaledPoints(m, left.value.position, right.value.position, k,
                             GetKeypoint(scaled, LeftShoulder).value.position,
                             GetKeypoint(scaled, RightShoulder).value.position);
    }
  }

  lemma DistanceOfScaledPoints(m: MathLib, a: Position, b: Position, k: real, a': Position, b': Position)
    requires SqrtLaws(m)
    requires a' == Position(k * a.x, k * a.y) && b' == Position(k * b.x, k * b.y)
    ensures Distance(m, a', b') == Abs(k) * Distance(m, a, b)
  {
    DistanceScaled(m, a, b, k);
  }

  /** Mapping `f` and then `g` over the positions is mapping their composition `h`. */
  lemma MapPositionsCompose(keypoints: seq<Keypoint>, f: Position -> Position, g: Position -> Position,
                            h: Position -> Position)
    requires forall p :: g(f(p)) == h(p)
    ensures MapPositions(MapPositions(keypoints, f), g) == MapPositions(keypoints, h)
  {
    var lhs, rhs := MapPositions(MapPositions(keypoints, f), g), MapPositions(keypoints, h);
    assert forall i :: 0 <= i < |keypoints| ==> lhs[i] == rhs[i];
  }

  /** Two maps that agree on every position give the same keypoints. */
  lemma MapPositionsAgree(keypoints: seq<Keypoint>, f: Position -> Position, g: Position -> Position)
    requires forall p :: f(p) == g(p)
    ensures MapPositions(keypoints, f) == MapPositions(keypoints, g)
  {
    var lhs, rhs := MapPositions(keypoints, f), MapPositions(keypoints, g);
    assert forall i :: 0 <= i < |keypoints| ==> lhs[i] == rhs[i];
  }

  /** The keypoints of a scaled pose in its scaled frame. */
  lemma ScaledFrames(keypoints: seq<Keypoint>, l: Position, d: real, k: real, l': Position, d': real)
    requires d != 0.0 && k != 0.0
    requires l' == Position(k * l.x, k * l.y) && d' == Abs(k) * d
    ensures d' != 0.0
    ensures MapPositions(MapPositions(keypoints, (p: Position) => Position(k * p.x, k * p.y)),
                         p => ToFrame(p, l', d'))
         == if k > 0.0 then MapPositions(keypoints, p => ToFrame(p, l, d))
            else MapPositions(MapPositions(keypoints, p => ToFrame(p, l, d)),
                              (p: Position) => Position(-1.0 * p.x, -1.0 * p.y))
  {
    ProductNonZero(Abs(k), d);
    var scale := (p: Position) => Position(k * p.x, k * p.y);
    var scaledFrame := p => ToFrame(p, l', d');
    var frame := p => ToFrame(p, l, d);
    var mirror := (p: Position) => Position(-1.0 * p.x, -1.0 * p.y);
    var expected := p => if k > 0.0 then frame(p) else mirror(frame(p));
    forall p
      ensures scaledFrame(scale(p)) == expected(p)
    {
      ScaledFrame(p, l, d, k);
      var sp := Position(k * p.x, k * p.y);
      assert scale(p) == sp;
      assert scaledFrame(sp) == ToFrame(sp, l', d');
      assert frame(p) == ToFrame(p, l, d);
    }
    MapPositionsCompose(keypoints, scale, scaledFrame, expected);
    if k > 0.0 {
      MapPositionsAgree(keypoints, frame, expected);
    } else {
      MapPositionsCompose(keypoints, frame, mirror, expected);
    }
  }

  lemma ProductNonZero(a: real, b: real)
    requires a != 0.0 && b != 0.0
    ensures a * b != 0.0
  {
  }

  /**
   * One coordinate in the frame of a scaled pose: `num` is the scaled
   * offset k*qc - k*lc and `den` the scaled distance |k|*d.
   */
  lemma ScaledCoordinate(k: real, qc: real, lc: real, d: real, num: real, den: real)
    requires d != 0.0 && k != 0.0
    requires num == k * qc - k * lc && den == Abs(k) * d
    ensures den != 0.0
    ensures num / den == if k > 0.0 then (qc - lc) / d else -1.0 * ((qc - lc) / d)
  {
    ProductNonZero(Abs(k), d);
    var q := (qc - lc) / d;
    assert q * d == qc - lc;
    var sign := if k > 0.0 then 1.0 else -1.0;
    assert Abs(k) == sign * k;
    assert (sign * q) * den == num by {
      assert (sign * q) * den == (sign * sign) * k * (q * d);
    }
  }

  /** In the frame of a scaled pose a scaled point has the original coordinates, negated when k < 0. */
  lemma ScaledFrame(q: Position, l: Position, d: real, k: real)
    requires d != 0.0 && k != 0.0
    ensures Abs(k) * d != 0.0
    ensures ToFrame(Position(k * q.x, k * q.y), Position(k * l.x, k * l.y), Abs(k) * d)
            == if k > 0.0 then ToFrame(q, l, d)
               else Position(-1.0 * ToFrame(q, l, d).x, -1.0 * ToFrame(q, l, d).y)
  {
    ScaledCoordinate(k, q.x, l.x, d, k * q.x - k * l.x, Abs(k) * d);
    ScaledCoordinate(k, q.y, l.y, d, k * q.y - k * l.y, Abs(k) * d);
  }

  // ---------------------------------------------------------------------
  // The distance pass
  // ---------------------------------------------------------------------

  /** A part takes part in the distance pass: confident in both poses. */
  predicate PartGated(n1: Pose, n2: Pose, part: string) {
    Confident(GetKeypoint(n1, part)) && Confident(GetKeypoint(n2, part))
  }

  /** The sum of the weights of the gated parts of `table`. */
  function TotalWeight(n1: Pose, n2: Pose, table: seq<(string, nat)>): nat {
    if table == [] then 0
    else
      var (part, weight) := table[|table| - 1];
      TotalWeight(n1, n2, table[..|table| - 1]) + if PartGated(n1, n2, part) then weight else 0
  }

  /** The sum, over the gated parts of `table`, of weight times keypoint distance. */
  function TotalWeightedDistance(m: MathLib, n1: Pose, n2: Pose, table: seq<(string, nat)>): real {
    if table == [] then 0.0
    else
      var (part, weight) := table[|table| - 1];
      TotalWeightedDistance(m, n1, n2, table[..|table| - 1])
      + if PartGated(n1, n2, part)
        then Distance(m, GetKeypoint(n1, part).value.position, GetKeypoint(n2, part).value.position) * weight as real
        else 0.0
  }

  // ---------------------------------------------------------------------
  // The angle pass
  // ---------------------------------------------------------------------

  /** All three points of the joint are confident in the pose. */
  predicate TripleConfident(pose: Pose, joint: (string, string, string)) {
    Confident(GetKeypoint(pose, joint.0)) && Confident(GetKeypoint(pose, joint.1))
    && Confident(GetKeypoint(pose, joint.2))
  }

  predicate JointCompared(n1: Pose, n2: Pose, joint: (string, string, string)) {
    TripleConfident(n1, joint) && TripleConfident(n2, joint)
  }

  function JointAngle(m: MathLib, pose: Pose, joint: (string, string, string)): real
    requires Atan2Laws(m)
    requires TripleConfident(pose, joint)
  {
    CalculateAngle(m, GetKeypoint(pose, joint.0).value.position, GetKeypoint(pose, joint.1).value.position,
                   GetKeypoint(pose, joint.2).value.position)
  }

  function AnglesCompared(n1: Pose, n2: Pose, joints: seq<(string, string, string)>): nat {
    if joints == [] then 0
    else AnglesCompared(n1, n2, joints[..|joints| - 1]) + if JointCompared(n1, n2, joints[|joints| - 1]) then 1 else 0
  }

  /** The sum of |angle1 - angle2| over the compared joints of `joints`. */
  function AngleDifferenceSum(m: MathLib, n1: Pose, n2: Pose, joints: seq<(string, string, string)>): real
    requires Atan2Laws(m)
  {
    if joints == [] then 0.0
    else
      var joint := joints[|joints| - 1];
      AngleDifferenceSum(m, n1, n2, joints[..|joints| - 1])
      + if JointCompared(n1, n2, joint) then Abs(JointAngle(m, n1, joint) - JointAngle(m, n2, joint)) else 0.0
  }

  /** The mean joint-angle difference, 0 when no joint is compared. */
  function AverageAngleDifference(m: MathLib, n1: Pose, n2: Pose): real
    requires Atan2Laws(m)
  {
    var compared := AnglesCompared(n1, n2, JointTriples);
    if compared > 0 then AngleDifferenceSum(m, n1, n2, JointTriples) / compared as real else 0.0
  }

  // ---------------------------------------------------------------------
  // Properties of the two passes
  // ---------------------------------------------------------------------

  /** The distance-pass totals do not depend on which pose comes first. */
  lemma {:induction false} TotalsSymmetric(m: MathLib, n1: Pose, n2: Pose, table: seq<(string, nat)>)
    ensures TotalWeight(n1, n2, table) == TotalWeight(n2, n1, table)
    ensures TotalWeightedDistance(m, n1, n2, table) == TotalWeightedDistance(m, n2, n1, table)
  {
    if table != [] {
      TotalsSymmetric(m, n1, n2, table[..|table| - 1]);
      var part := table[|table| - 1].0;
      if PartGated(n1, n2, part) {
        DistanceSymmetric(m, GetKeypoint(n1, part).value.position, GetKeypoint(n2, part).value.position);
      }
    }
  }

  /** The angle-pass totals do not depend on which pose comes first. */
  lemma {:induction false} AnglesSymmetric(m: MathLib, n1: Pose, n2: Pose, joints: seq<(string, string, string)>)
    requires Atan2Laws(m)
    ensures AnglesCompared(n1, n2, joints) == AnglesCompared(n2, n1, joints)
    ensures AngleDifferenceSum(m, n1, n2, joints) == AngleDifferenceSum(m, n2, n1, joints)
  {
    if joints != [] {
      AnglesSymmetric(m, n1, n2, joints[..|joints| - 1]);
    }
  }

  /** Comparing a pose with itself adds no distance. */
  lemma {:induction false} DistanceOfSelfIsZero(m: MathLib, n: Pose, table: seq<(string, nat)>)
    requires SqrtLaws(m)
    ensures TotalWeightedDistance(m, n, n, table) == 0.0
  {
    if table != [] {
      DistanceOfSelfIsZero(m, n, table[..|table| - 1]);
      var part := table[|table| - 1].0;
      if PartGated(n, n, part) {
        var p := GetKeypoint(n, part).value.position;
        DistanceIsZeroIff(m, p, p);
      }
    }
  }

  /** Comparing a pose with itself adds no angle difference. */
  lemma {:induction false} AnglesOfSelfAreEqual(m: MathLib, n: Pose, joints: seq<(string, string, string)>)
    requires Atan2Laws(m)
    ensures AngleDifferenceSum(m, n, n, joints) == 0.0
  {
    if joints != [] {
      AnglesOfSelfAreEqual(m, n, joints[..|joints| - 1]);
    }
  }

  /**
   * With positive weights, the total weight is positive exactly when some
   * part of the table is confident in both poses.
   */
  lemma {:induction false} TotalWeightPositiveIff(n1: Pose, n2: Pose, table: seq<(string, nat)>)
    requires forall i :: 0 <= i < |table| ==> table[i].1 > 0
    ensures TotalWeight(n1, n2, table) > 0 <==> exists i :: 0 <= i < |table| && PartGated(n1, n2, table[i].0)
  {
    if table != [] {
      var init := table[..|table| - 1];
      TotalWeightPositiveIff(n1, n2, init);
      if exists i :: 0 <= i < |init| && PartGated(n1, n2, init[i].0) {
        var i :| 0 <= i < |init| && PartGated(n1, n2, init[i].0);
        assert table[i] == init[i];
      }
      if exists i :: 0 <= i < |table| && PartGated(n1, n2, table[i].0) {
        var i :| 0 <= i < |table| && PartGated(n1, n2, table[i].0);
        if i < |init| {
          assert init[i] == table[i];
        }
      }
    }
  }

  /** The angle differences lie between 0 and 180 per compared joint. */
  lemma {:induction false} AngleDifferenceSumBounds(m: MathLib, n1: Pose, n2: Pose, joints: seq<(string, string, string)>)
    requires Atan2Laws(m)
    ensures 0.0 <= AngleDifferenceSum(m, n1, n2, joints) <= 180.0 * AnglesCompared(n1, n2, joints) as real
  {
    if joints != [] {
      AngleDifferenceSumBounds(m, n1, n2, joints[..|joints| - 1]);
    }
  }

  /**
   * The mean angle difference is 0 when no joint is compared, and in any
   * case lies in [0, 180].
   */
  lemma AverageAngleDifferenceRange(m: MathLib, n1: Pose, n2: Pose)
    requires Atan2Laws(m)
    ensures AnglesCompared(n1, n2, JointTriples) == 0 ==> AverageAngleDifference(m, n1, n2) == 0.0
    ensures 0.0 <= AverageAngleDifference(m, n1, n2) <= 180.0
  {
    var compared := AnglesCompared(n1, n2, JointTriples);
    AngleDifferenceSumBounds(m, n1, n2, JointTriples);
    if compared > 0 {
      QuotientBounds(AngleDifferenceSum(m, n1, n2, JointTriples), compared as real, 180.0);
    }
  }

  // ---------------------------------------------------------------------
  // The decision
  // ---------------------------------------------------------------------

  /** The decision on two already normalized poses. */
  predicate NormalizedSimilar(m: MathLib, n1: Pose, n2: Pose)
    requires Atan2Laws(m)
  {
    var totalWeight := TotalWeight(n1, n2, KeypointWeights);
    totalWeight != 0
    && TotalWeightedDistance(m, n1, n2, KeypointWeights) / totalWeight as real < DistanceThreshold
    && AverageAngleDifference(m, n1, n2) < AngleThreshold
  }

  /** What `comparePoses` answers for two possibly absent poses. */
  predicate PosesSimilar(m: MathLib, pose1: Option<Pose>, pose2: Option<Pose>)
    requires Atan2Laws(m)
  {
    pose1.Some? && pose2.Some?
    && var normalized1 := NormalizePose(m, pose1.value);
       var normalized2 := NormalizePose(m, pose2.value);
       normalized1.Some? && normalized2.Some? && NormalizedSimilar(m, normalized1.value, normalized2.value)
  }


  // ---------------------------------------------------------------------
  // Properties of the decision
  // ---------------------------------------------------------------------

  /** `comparePoses(a, b)` and `comparePoses(b, a)` agree. */
  lemma PosesSimilarSymmetric(m: MathLib, pose1: Option<Pose>, pose2: Option<Pose>)
    requires Atan2Laws(m)
    ensures PosesSimilar(m, pose1, pose2) == PosesSimilar(m, pose2, pose1)
  {
    if pose1.Some? && pose2.Some? {
      var normalized1 := NormalizePose(m, pose1.value);
      var normalized2 := NormalizePose(m, pose2.value);
      if normalized1.Some? && normalized2.Some? {
        TotalsSymmetric(m, normalized1.value, normalized2.value, KeypointWeights);
        AnglesSymmetric(m, normalized1.value, normalized2.value, JointTriples);
      }
    }
  }

  /**
   * A pose with distinct shoulders and at least one weighted part scored above
   * 0.5 is similar to itself.
   */
  lemma PosesSimilarReflexive(m: MathLib, pose: Pose)
    requires SqrtLaws(m) && Atan2Laws(m)
    requires HasDistinctShoulders(pose)
    requires exists i :: 0 <= i < |KeypointWeights| && Confident(GetKeypoint(pose, KeypointWeights[i].0))
    ensures PosesSimilar(m, Some(pose), Some(pose))
  {
    NormalizeFailsExactly(m, pose);
    var n := NormalizePose(m, pose).value;
    var i :| 0 <= i < |KeypointWeights| && Confident(GetKeypoint(pose, KeypointWeights[i].0));
    NormalizeKeepsConfidence(m, pose, KeypointWeights[i].0);
    TotalWeightPositiveIff(n, n, KeypointWeights);
    DistanceOfSelfIsZero(m, n, KeypointWeights);
    AnglesOfSelfAreEqual(m, n, JointTriples);
  }

  /** An absent pose is never similar to anything. */
  lemma AbsentPoseRejects(m: MathLib, pose: Option<Pose>)
    requires Atan2Laws(m)
    ensures !PosesSimilar(m, None, pose) && !PosesSimilar(m, pose, None)
  {
  }

  /** A pose without two distinct shoulders is never similar to anything. */
  lemma DegeneratePoseRejects(m: MathLib, pose: Pose, other: Option<Pose>)
    requires SqrtLaws(m) && Atan2Laws(m)
    requires !HasDistinctShoulders(pose)
    ensures !PosesSimilar(m, Some(pose), other) && !PosesSimilar(m, other, Some(pose))
  {
    NormalizeFailsExactly(m, pose);
  }

  /** When no weighted part is confident in both poses, the poses are not similar. */
  lemma NoSharedConfidentPartRejects(m: MathLib, pose1: Pose, pose2: Pose)
    requires Atan2Laws(m)
    requires forall i :: 0 <= i < |KeypointWeights| ==>
               !(Confident(GetKeypoint(pose1, KeypointWeights[i].0)) && Confident(GetKeypoint(pose2, KeypointWeights[i].0)))
    ensures !PosesSimilar(m, Some(pose1), Some(pose2))
  {
    var normalized1 := NormalizePose(m, pose1);
    var normalized2 := NormalizePose(m, pose2);
    if normalized1.Some? && normalized2.Some? {
      forall i | 0 <= i < |KeypointWeights|
        ensures !PartGated(normalized1.value, normalized2.value, KeypointWeights[i].0)
      {
        NormalizeKeepsConfidence(m, pose1, KeypointWeights[i].0);
        NormalizeKeepsConfidence(m, pose2, KeypointWeights[i].0);
      }
      TotalWeightPositiveIff(normalized1.value, normalized2.value, KeypointWeights);
    }
  }

  // ---------------------------------------------------------------------
  // Confidence gating: a keypoint scored at most 0.5 counts as absent
  // ---------------------------------------------------------------------

  function Rescore(keypoints: seq<Keypoint>, part: string, score: real): seq<Keypoint> {
    if keypoints == [] then []
    else [if keypoints[0].part == part then keypoints[0].(score := score) else keypoints[0]]
         + Rescore(keypoints[1..], part, score)
  }

  function Drop(keypoints: seq<Keypoint>, part: string): seq<Keypoint> {
    if keypoints == [] then []
    else (if keypoints[0].part == part then [] else [keypoints[0]]) + Drop(keypoints[1..], part)
  }

  /** `pose` with every keypoint naming `part` given the score `score`. */
  function WithScore(pose: Pose, part: string, score: real): Pose {
    pose.(keypoints := Rescore(pose.keypoints, part, score))
  }

  /** `pose` with every keypoint naming `part` removed. */
  function Without(pose: Pose, part: string): Pose {
    pose.(keypoints := Drop(pose.keypoints, part))
  }

  lemma {:induction false} FindRescored(keypoints: seq<Keypoint>, part: string, score: real, q: string)
    ensures Find(Rescore(keypoints, part, score), q)
         == if q != part then Find(keypoints, q)
            else match Find(keypoints, q)
                 case None => None
                 case Some(k) => Some(k.(score := score))
  {
    if keypoints != [] {
      FindRescored(keypoints[1..], part, score, q);
    }
  }

  lemma {:induction false} FindDropped(keypoints: seq<Keypoint>, part: string, q: string)
    ensures Find(Drop(keypoints, part), q) == if q == part then None else Find(keypoints, q)
  {
    if keypoints != [] {
      FindDropped(keypoints[1..], part, q);
      if keypoints[0].part != part {
        var dropped := Drop(keypoints, part);
        assert dropped == [keypoints[0]] + Drop(keypoints[1..], part);
        assert dropped[0] == keypoints[0] && dropped[1..] == Drop(keypoints[1..], part);
      } else {
        assert Drop(keypoints, part) == Drop(keypoints[1..], part);
      }
    }
  }

  /** Both poses have the same confident parts, each at the same position. */
  ghost predicate SameConfidentView(a: Pose, b: Pose) {
    forall q :: Confident(GetKeypoint(a, q)) == Confident(GetKeypoint(b, q))
                && (Confident(GetKeypoint(a, q)) ==> GetKeypoint(a, q).value.position == GetKeypoint(b, q).value.position)
  }

  /** The distance pass sees only the confident parts and their positions. */
  lemma {:induction false} TotalsOfSameView(m: MathLib, p: Pose, a: Pose, b: Pose, table: seq<(string, nat)>)
    requires SameConfidentView(a, b)
    ensures TotalWeight(p, a, table) == TotalWeight(p, b, table)
    ensures TotalWeightedDistance(m, p, a, table) == TotalWeightedDistance(m, p, b, table)
  {
    if table != [] {
      TotalsOfSameView(m, p, a, b, table[..|table| - 1]);
      var part := table[|table| - 1].0;
      assert Confident(GetKeypoint(a, part)) == Confident(GetKeypoint(b, part));
    }
  }

  /** The angle pass sees only the confident parts and their positions. */
  lemma {:induction false} AnglesOfSameView(m: MathLib, p: Pose, a: Pose, b: Pose, joints: seq<(string, string, string)>)
    requires Atan2Laws(m)
    requires SameConfidentView(a, b)
    ensures AnglesCompared(p, a, joints) == AnglesCompared(p, b, joints)
    ensures AngleDifferenceSum(m, p, a, joints) == AngleDifferenceSum(m, p, b, joints)
  {
    if joints != [] {
      AnglesOfSameView(m, p, a, b, joints[..|joints| - 1]);
      var joint := joints[|joints| - 1];
      assert Confident(GetKeypoint(a, joint.0)) == Confident(GetKeypoint(b, joint.0));
      assert Confident(GetKeypoint(a, joint.1)) == Confident(GetKeypoint(b, joint.1));
      assert Confident(GetKeypoint(a, joint.2)) == Confident(GetKeypoint(b, joint.2));
    }
  }

  /** Poses with the same shoulders and the same confident view normalize alike. */
  lemma NormalizeSameView(m: MathLib, a: Pose, b: Pose)
    requires SameConfidentView(a, b)
    requires GetKeypoint(a, LeftShoulder) == GetKeypoint(b, LeftShoulder)
    requires GetKeypoint(a, RightShoulder) == GetKeypoint(b, RightShoulder)
    ensures NormalizePose(m, a).Some? == NormalizePose(m, b).Some?
    ensures NormalizePose(m, a).Some? ==> SameConfidentView(NormalizePose(m, a).value, NormalizePose(m, b).value)
  {
    if NormalizePose(m, a).Some? {
      forall q
        ensures Confident(GetKeypoint(NormalizePose(m, a).value, q)) == Confident(GetKeypoint(NormalizePose(m, b).value, q))
        ensures Confident(GetKeypoint(NormalizePose(m, a).value, q)) ==>
                  GetKeypoint(NormalizePose(m, a).value, q).value.position
                  == GetKeypoint(NormalizePose(m, b).value, q).value.position
      {
        NormalizedLookup(m, a, q);
        NormalizedLookup(m, b, q);
      }
    }
  }

  /** Two poses with the same shoulders and confident view are judged alike against any pose. */
  lemma SameViewSimilar(m: MathLib, p: Pose, a: Pose, b: Pose)
    requires Atan2Laws(m)
    requires SameConfidentView(a, b)
    requires GetKeypoint(a, LeftShoulder) == GetKeypoint(b, LeftShoulder)
    requires GetKeypoint(a, RightShoulder) == GetKeypoint(b, RightShoulder)
    ensures PosesSimilar(m, Some(p), Some(a)) == PosesSimilar(m, Some(p), Some(b))
  {
    NormalizeSameView(m, a, b);
    var np := NormalizePose(m, p);
    var na := NormalizePose(m, a);
    var nb := NormalizePose(m, b);
    if np.Some? && na.Some? {
      TotalsOfSameView(m, np.value, na.value, nb.value, KeypointWeights);
      AnglesOfSameView(m, np.value, na.value, nb.value, JointTriples);
    }
  }

  /**
   * Lowering the score of a (non-shoulder) part to at most 0.5 in one pose
   * gives the same answer as removing that part from the pose: the part no
   * longer contributes to either pass.
   */
  lemma LowScorePartIsIgnored(m: MathLib, p: Pose, pose: Pose, part: string, score: real)
    requires Atan2Laws(m)
    requires score <= MinScore
    requires part != LeftShoulder && part != RightShoulder
    ensures PosesSimilar(m, Some(p), Some(WithScore(pose, part, score)))
            == PosesSimilar(m, Some(p), Some(Without(pose, part)))
  {
    var a, b := WithScore(pose, part, score), Without(pose, part);
    forall q
      ensures Confident(GetKeypoint(a, q)) == Confident(GetKeypoint(b, q))
      ensures Confident(GetKeypoint(a, q)) ==> GetKeypoint(a, q).value.position == GetKeypoint(b, q).value.position
    {
      FindRescored(pose.keypoints, part, score, q);
      FindDropped(pose.keypoints, part, q);
    }
    FindRescored(pose.keypoints, part, score, LeftShoulder);
    FindDropped(pose.keypoints, part, LeftShoulder);
    FindRescored(pose.keypoints, part, score, RightShoulder);
    FindDropped(pose.keypoints, part, RightShoulder);
    SameViewSimilar(m, p, a, b);
  }

  /**
   * The weighted distance pass over a weight table (`KeypointWeights`): sums weight times
   * distance, and the weights, of the parts confident in both poses.
   */
  method DistancePass(m: MathLib, n1: Pose, n2: Pose, weights: seq<(string, nat)>)
    returns (totalWeightedDistance: real, totalWeight: nat)
    ensures totalWeight == TotalWeight(n1, n2, weights)
    ensures totalWeightedDistance == TotalWeightedDistance(m, n1, n2, weights)
  {
    totalWeightedDistance, totalWeight := 0.0, 0;
    var i := 0;
    while i < |weights|
      invariant 0 <= i <= |weights|
      invariant totalWeight == TotalWeight(n1, n2, weights[..i])
      invariant totalWeightedDistance == TotalWeightedDistance(m, n1, n2, weights[..i])
    {
      var (part, weight) := weights[i];
      var p1 := GetKeypoint(n1, part);
      var p2 := GetKeypoint(n2, part);
      if p1.Some? && p2.Some? && p1.value.score > MinScore && p2.value.score > MinScore {
        var dx := p1.value.position.x - p2.value.position.x;
        var dy := p1.value.position.y - p2.value.position.y;
        var dist := m.sqrt(Sq(dx) + Sq(dy));
        totalWeightedDistance := totalWeightedDistance + dist * weight as real;
        totalWeight := totalWeight + weight;
      }
      assert weights[..i + 1][..i] == weights[..i];
      i := i + 1;
    }
    assert weights[..i] == weights;
  }

  /**
   * The joint-angle pass over `joints`: sums the angle differences of
   * the joints whose three points are confident in both poses, and counts them.
   */
  method AnglePass(m: MathLib, n1: Pose, n2: Pose, joints: seq<(string, string, string)>)
    returns (totalAngleDifference: real, anglesCompared: nat)
    requires Atan2Laws(m)
    ensures anglesCompared == AnglesCompared(n1, n2, joints)
    ensures totalAngleDifference == AngleDifferenceSum(m, n1, n2, joints)
  {
    totalAngleDifference, anglesCompared := 0.0, 0;
    var j := 0;
    while j < |joints|
      invariant 0 <= j <= |joints|
      invariant anglesCompared == AnglesCompared(n1, n2, joints[..j])
      invariant totalAngleDifference == AngleDifferenceSum(m, n1, n2, joints[..j])
    {
      var joint := joints[j];
      var points1 := [GetKeypoint(n1, joint.0), GetKeypoint(n1, joint.1), GetKeypoint(n1, joint.2)];
      var points2 := [GetKeypoint(n2, joint.0), GetKeypoint(n2, joint.1), GetKeypoint(n2, joint.2)];
      if (forall p <- points1 :: Confident(p)) && (forall p <- points2 :: Confident(p)) {
        assert points1[0] in points1 && points1[1] in points1 && points1[2] in points1;
        assert points2[0] in points2 && points2[1] in points2 && points2[2] in points2;
        var angle1 := CalculateAngle(m, points1[0].value.position, points1[1].value.position, points1[2].value.position);
        var angle2 := CalculateAngle(m, points2[0].value.position, points2[1].value.position, points2[2].value.position);
        totalAngleDifference := totalAngleDifference + Abs(angle1 - angle2);
        anglesCompared := anglesCompared + 1;
      } else {
        assert !JointCompared(n1, n2, joint);
      }
      assert joints[..j + 1][..j] == joints[..j];
      j := j + 1;
    }
    assert joints[..j] == joints;
  }

  /**
   * Compares two poses: false when either is absent or cannot be normalized,
   * or when no part is confident in both; otherwise true exactly when the
   * weighted mean keypoint distance is below 0.4 and the mean joint-angle
   * difference is below 12 degrees.
   */
  method ComparePoses(m: MathLib, pose1: Option<Pose>, pose2: Option<Pose>) returns (similar: bool)
    requires Atan2Laws(m)
    ensures similar == PosesSimilar(m, pose1, pose2)
    ensures pose1.None? || pose2.None? ==> !similar
  {
    if pose1.None? || pose2.None? {
      return false;
    }
    var normalized1 := NormalizePose(m, pose1.value);
    var normalized2 := NormalizePose(m, pose2.value);
    if normalized1.None? || normalized2.None? {
      return false;
    }
    var n1, n2 := normalized1.value, normalized2.value;

    var totalWeightedDistance, totalWeight := DistancePass(m, n1, n2, KeypointWeights);
    if totalWeight == 0 {
      return false;
    }
    var weightedAverageDistance := totalWeightedDistance / totalWeight as real;

    var totalAngleDifference, anglesCompared := AnglePass(m, n1, n2, JointTriples);
    var averageAngleDifference := if anglesCompared > 0 then totalAngleDifference / anglesCompared as real else 0.0;
    similar := weightedAverageDistance < DistanceThreshold && averageAngleDifference < AngleThreshold;
  }
}
