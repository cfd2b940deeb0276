/**
 The mathematics of the ball-and-socket joint (a point-to-point constraint
 between two rigid bodies), as values: the effective-mass matrix
 K = J M^-1 J^T, the bias, the constraint velocity J v, the impulse that one
 velocity iteration computes and the way an impulse is applied to the
 per-step velocity, position and orientation arrays (here sequences).

 The class BallAndSocket.BallAndSocketJoint states its methods' effects in
 terms of these functions; the lemmas here say what those effects mean.
 */
module JointDynamics {
  import opened Mathematics

  /** How a joint corrects position error: a Baumgarte bias in the velocity
      constraint, or a separate non-linear Gauss-Seidel pass on positions. */
  datatype JointsPositionCorrectionTechnique = BaumgarteJoints | NonLinearGaussSeidel

  /** The Baumgarte bias factor of the ball-and-socket joint. */
  const BETA: real := 0.2

  /** What the joint uses of one of its bodies during a step: the body's
      index in the per-step arrays, its inverse mass, whether its motion is
      enabled, the vector from its centre to the anchor point in world space
      and its world-space inverse inertia tensor. */
  datatype ConstrainedBody = ConstrainedBody(
    index: nat,
    inverseMass: real,
    motionEnabled: bool,
    rWorld: Vector3,
    inverseInertia: Matrix3x3)

  // ---------------------------------------------------------------------
  // Effective mass and bias

  /** The sum of the inverse masses of the motion-enabled bodies, accumulated
      from 0 in the order body 1, body 2. */
  function InverseMassBodies(b1: ConstrainedBody, b2: ConstrainedBody): (m: real)
    ensures m == (if b1.motionEnabled then b1.inverseMass else 0.0) + (if b2.motionEnabled then b2.inverseMass else 0.0)
  {
    var m := if b1.motionEnabled then 0.0 + b1.inverseMass else 0.0;
    if b2.motionEnabled then m + b2.inverseMass else m
  }

  /** The angular contribution `[r]x * I^-1 * [r]x^T` of one body to K. */
  function AngularMassTerm(b: ConstrainedBody): Matrix3x3 {
    var u := SkewSymmetricMatrixForCrossProduct(b.rWorld);
    u.Mul(b.inverseInertia).Mul(u.Transpose())
  }

  /** K = J M^-1 J^T: the inverse masses of the motion-enabled bodies on the
      diagonal, plus the angular term of each motion-enabled body. */
  function MassMatrix(b1: ConstrainedBody, b2: ConstrainedBody): (k: Matrix3x3)
    ensures !b1.motionEnabled && !b2.motionEnabled ==> k == ZeroMatrix
  {
    var k := Diagonal(InverseMassBodies(b1, b2));
    var k1 := if b1.motionEnabled then k.Add(AngularMassTerm(b1)) else k;
    if b2.motionEnabled then k1.Add(AngularMassTerm(b2)) else k1
  }

  /** K^-1, or the zero matrix when neither body can move. */
  function InverseMassMatrix(math: MathKernel, b1: ConstrainedBody, b2: ConstrainedBody): (m: Matrix3x3)
    ensures !b1.motionEnabled && !b2.motionEnabled ==> m == ZeroMatrix
  {
    if b1.motionEnabled || b2.motionEnabled then math.inverse(MassMatrix(b1, b2)) else ZeroMatrix
  }

  /** The constraint error C = x2 + r2 - x1 - r1: the vector from the anchor
      point as seen by body 1 to the anchor point as seen by body 2. */
  function AnchorSeparation(x1: Vector3, r1: Vector3, x2: Vector3, r2: Vector3): (c: Vector3)
    ensures x1.Add(r1).Add(c) == x2.Add(r2)
  {
    x2.Add(r2).Sub(x1).Sub(r1)
  }

  /** The bias b of the velocity constraint: (BETA / timeStep) * C under the
      Baumgarte technique and zero otherwise. */
  function BiasVector(technique: JointsPositionCorrectionTechnique, timeStep: real,
                      x1: Vector3, r1: Vector3, x2: Vector3, r2: Vector3): (b: Vector3)
    requires technique == BaumgarteJoints ==> timeStep != 0.0
    ensures technique != BaumgarteJoints ==> b == Zero
    ensures technique == BaumgarteJoints ==> b.Scale(timeStep) == AnchorSeparation(x1, r1, x2, r2).Scale(BETA)
  {
    if technique == BaumgarteJoints then
      var c := AnchorSeparation(x1, r1, x2, r2);
      var biasFactor := BETA / timeStep;
      assert timeStep * biasFactor == BETA;
      MulAssoc(timeStep, biasFactor, c.x);
      MulAssoc(timeStep, biasFactor, c.y);
      MulAssoc(timeStep, biasFactor, c.z);
      c.Scale(biasFactor)
    else
      Zero
  }

  // ---------------------------------------------------------------------
  // Impulses and their effect

  /** J v = v2 + w2 x r2 - v1 - w1 x r1: the relative velocity of the two anchor points. */
  function RelativeVelocity(v1: Vector3, w1: Vector3, v2: Vector3, w2: Vector3,
                            r1: Vector3, r2: Vector3): (jv: Vector3)
    ensures v1.Add(w1.Cross(r1)).Add(jv) == v2.Add(w2.Cross(r2))
  {
    v2.Add(w2.Cross(r2)).Sub(v1).Sub(w1.Cross(r1))
  }

  /** The parts of the impulse J^T lambda that act on body 1 and on body 2. */
  function LinearImpulse1(lambda: Vector3): Vector3 { lambda.Neg() }
  function AngularImpulse1(b1: ConstrainedBody, lambda: Vector3): Vector3 { lambda.Cross(b1.rWorld) }
  function LinearImpulse2(lambda: Vector3): Vector3 { lambda }
  function AngularImpulse2(b2: ConstrainedBody, lambda: Vector3): Vector3 { lambda.Cross(b2.rWorld).Neg() }

  /** The change of velocity that a linear impulse `p` and an angular impulse
      `l` give body `b`: none when its motion is disabled. */
  function LinearChange(b: ConstrainedBody, p: Vector3): Vector3 {
    if b.motionEnabled then p.Scale(b.inverseMass) else Zero
  }
  function AngularChange(b: ConstrainedBody, l: Vector3): Vector3 {
    if b.motionEnabled then b.inverseInertia.Apply(l) else Zero
  }

  /** `s[i] += d` when `enabled`, and nothing otherwise. */
  function Kick(s: seq<Vector3>, enabled: bool, i: nat, d: Vector3): (r: seq<Vector3>)
    requires i < |s|
    ensures |r| == |s|
    ensures forall k :: 0 <= k < |s| && k != i ==> r[k] == s[k]
    ensures r[i] == if enabled then s[i].Add(d) else s[i]
  {
    if enabled then s[i := s[i].Add(d)] else s
  }

  predicate Indexes(b1: ConstrainedBody, b2: ConstrainedBody, n: nat) {
    b1.index < n && b2.index < n
  }

  /** The linear velocities (or, for a pseudo-impulse, the positions) after
      applying the impulse of multiplier `lambda`: body 1 first, then body 2. */
  function ApplyLinearImpulses(s: seq<Vector3>, b1: ConstrainedBody, b2: ConstrainedBody,
                               lambda: Vector3): seq<Vector3>
    requires Indexes(b1, b2, |s|)
  {
    var s1 := Kick(s, b1.motionEnabled, b1.index, LinearImpulse1(lambda).Scale(b1.inverseMass));
    Kick(s1, b2.motionEnabled, b2.index, LinearImpulse2(lambda).Scale(b2.inverseMass))
  }

  /** The angular velocities after applying the impulse of multiplier `lambda`. */
  function ApplyAngularImpulses(s: seq<Vector3>, b1: ConstrainedBody, b2: ConstrainedBody,
                                lambda: Vector3): seq<Vector3>
    requires Indexes(b1, b2, |s|)
  {
    var s1 := Kick(s, b1.motionEnabled, b1.index, b1.inverseInertia.Apply(AngularImpulse1(b1, lambda)));
    Kick(s1, b2.motionEnabled, b2.index, b2.inverseInertia.Apply(AngularImpulse2(b2, lambda)))
  }

  /** The constraint velocity J v read from the step's velocity arrays. */
  function ConstraintVelocity(lv: seq<Vector3>, av: seq<Vector3>,
                              b1: ConstrainedBody, b2: ConstrainedBody): Vector3
    requires Indexes(b1, b2, |lv|) && Indexes(b1, b2, |av|)
  {
    RelativeVelocity(lv[b1.index], av[b1.index], lv[b2.index], av[b2.index], b1.rWorld, b2.rWorld)
  }

  /** The multiplier increment K^-1 (-J v - b) of one velocity iteration. */
  function DeltaLambda(inverseMassMatrix: Matrix3x3, lv: seq<Vector3>, av: seq<Vector3>,
                       b1: ConstrainedBody, b2: ConstrainedBody, bias: Vector3): Vector3
    requires Indexes(b1, b2, |lv|) && Indexes(b1, b2, |av|)
  {
    inverseMassMatrix.Apply(ConstraintVelocity(lv, av, b1, b2).Neg().Sub(bias))
  }

  // ---------------------------------------------------------------------
  // Position correction

  /** The constraint error C read from the step's position array. */
  function PositionError(xs: seq<Vector3>, b1: ConstrainedBody, b2: ConstrainedBody): Vector3
    requires Indexes(b1, b2, |xs|)
  {
    AnchorSeparation(xs[b1.index], b1.rWorld, xs[b2.index], b2.rWorld)
  }

  /** q + 0.5 * (0, w) * q: one explicit step of the orientation under the angular (pseudo) velocity w. */
  function IntegrateOrientation(q: Quaternion, w: Vector3): (r: Quaternion)
    ensures w == Zero ==> r == q
  {
    q.Add(FromScalarVector(0.0, w).Mul(q).Scale(0.5))
  }

  /** `s[i] := normalize(s[i] + 0.5 * (0, w) * s[i])` when `enabled`. */
  function Turn(s: seq<Quaternion>, enabled: bool, i: nat, w: Vector3,
                normalize: Quaternion -> Quaternion): (r: seq<Quaternion>)
    requires i < |s|
    ensures |r| == |s|
    ensures forall k :: 0 <= k < |s| && k != i ==> r[k] == s[k]
    ensures r[i] == if enabled then normalize(IntegrateOrientation(s[i], w)) else s[i]
  {
    if enabled then s[i := normalize(IntegrateOrientation(s[i], w))] else s
  }

  /** The orientations after the position pass applies the pseudo-impulse of multiplier `lambda`. */
  function ApplyOrientationCorrections(qs: seq<Quaternion>, b1: ConstrainedBody, b2: ConstrainedBody,
                                       lambda: Vector3, normalize: Quaternion -> Quaternion): seq<Quaternion>
    requires Indexes(b1, b2, |qs|)
  {
    var q1 := Turn(qs, b1.motionEnabled, b1.index,
                   b1.inverseInertia.Apply(AngularImpulse1(b1, lambda)), normalize);
    Turn(q1, b2.motionEnabled, b2.index, b2.inverseInertia.Apply(AngularImpulse2(b2, lambda)), normalize)
  }

  // ---------------------------------------------------------------------
  // Lemmas

  /** The impulse on body 2 is the negation of the impulse on body 1, and each
      body's angular impulse is the moment, about its centre, of its linear
      impulse applied at the anchor point. */
  lemma ImpulsesAreEqualAndOpposite(b1: ConstrainedBody, b2: ConstrainedBody, lambda: Vector3)
    ensures LinearImpulse2(lambda) == LinearImpulse1(lambda).Neg()
    ensures AngularImpulse1(b1, lambda) == b1.rWorld.Cross(LinearImpulse1(lambda))
    ensures AngularImpulse2(b2, lambda) == b2.rWorld.Cross(LinearImpulse2(lambda))
  {
    CrossAnticommutes(lambda, b2.rWorld);
  }

  /** Between two movable bodies of masses m1 = 1 / invMass1 and m2 = 1 / invMass2,
      applying a joint impulse leaves the total linear momentum unchanged. */
  lemma LinearMomentumIsConserved(lv: seq<Vector3>, b1: ConstrainedBody, b2: ConstrainedBody,
                                  lambda: Vector3, m1: real, m2: real)
    requires Indexes(b1, b2, |lv|) && b1.index != b2.index
    requires b1.motionEnabled && b2.motionEnabled
    requires m1 * b1.inverseMass == 1.0 && m2 * b2.inverseMass == 1.0
    ensures var after := ApplyLinearImpulses(lv, b1, b2, lambda);
            after[b1.index].Scale(m1).Add(after[b2.index].Scale(m2))
            == lv[b1.index].Scale(m1).Add(lv[b2.index].Scale(m2))
  {
    var after := ApplyLinearImpulses(lv, b1, b2, lambda);
    var (i1, i2) := (b1.index, b2.index);
    assert after[i1] == lv[i1].Add(lambda.Neg().Scale(b1.inverseMass));
    assert after[i2] == lv[i2].Add(lambda.Scale(b2.inverseMass));
    MomentumChange(lv[i1], lambda.Neg(), b1.inverseMass, m1);
    MomentumChange(lv[i2], lambda, b2.inverseMass, m2);
  }

  /** A body of mass m = 1 / invMass whose velocity changes by invMass * p
      changes its momentum by p. */
  lemma MomentumChange(v: Vector3, p: Vector3, invMass: real, m: real)
    requires m * invMass == 1.0
    ensures v.Add(p.Scale(invMass)).Scale(m) == v.Scale(m).Add(p)
  {
    MulAssoc(m, invMass, p.x);
    MulAssoc(m, invMass, p.y);
    MulAssoc(m, invMass, p.z);
  }

  lemma MulAssoc(a: real, b: real, c: real)
    ensures a * (b * c) == (a * b) * c
  {
  }

  /** Applying an impulse changes no entry of the step arrays other than the
      two joint bodies' entries. */
  lemma OnlyJointBodiesChange(s: seq<Vector3>, qs: seq<Quaternion>, b1: ConstrainedBody,
                              b2: ConstrainedBody, lambda: Vector3,
                              normalize: Quaternion -> Quaternion, k: nat)
    requires Indexes(b1, b2, |s|) && Indexes(b1, b2, |qs|)
    requires k != b1.index && k != b2.index
    ensures |ApplyLinearImpulses(s, b1, b2, lambda)| == |s|
    ensures |ApplyAngularImpulses(s, b1, b2, lambda)| == |s|
    ensures |ApplyOrientationCorrections(qs, b1, b2, lambda, normalize)| == |qs|
    ensures k < |s| ==> ApplyLinearImpulses(s, b1, b2, lambda)[k] == s[k]
    ensures k < |s| ==> ApplyAngularImpulses(s, b1, b2, lambda)[k] == s[k]
    ensures k < |qs| ==> ApplyOrientationCorrections(qs, b1, b2, lambda, normalize)[k] == qs[k]
  {
  }

  /** A body whose motion is disabled keeps its velocity, position and
      orientation (unless the other joint body, sharing its index, moves). */
  lemma DisabledBodyIsUnchanged(s: seq<Vector3>, qs: seq<Quaternion>, b1: ConstrainedBody,
                                b2: ConstrainedBody, lambda: Vector3,
                                normalize: Quaternion -> Quaternion)
    requires Indexes(b1, b2, |s|) && Indexes(b1, b2, |qs|)
    ensures !b1.motionEnabled && (b1.index != b2.index || !b2.motionEnabled) ==>
              ApplyLinearImpulses(s, b1, b2, lambda)[b1.index] == s[b1.index]
              && ApplyAngularImpulses(s, b1, b2, lambda)[b1.index] == s[b1.index]
              && ApplyOrientationCorrections(qs, b1, b2, lambda, normalize)[b1.index] == qs[b1.index]
    ensures !b2.motionEnabled && (b1.index != b2.index || !b1.motionEnabled) ==>
              ApplyLinearImpulses(s, b1, b2, lambda)[b2.index] == s[b2.index]
              && ApplyAngularImpulses(s, b1, b2, lambda)[b2.index] == s[b2.index]
              && ApplyOrientationCorrections(qs, b1, b2, lambda, normalize)[b2.index] == qs[b2.index]
  {
  }

  /** With distinct indices, each joint body's entry moves by exactly its own
      velocity change (zero when its motion is disabled). */
  lemma ImpulseAtJointBodies(lv: seq<Vector3>, av: seq<Vector3>, b1: ConstrainedBody,
                             b2: ConstrainedBody, lambda: Vector3)
    requires Indexes(b1, b2, |lv|) && Indexes(b1, b2, |av|) && b1.index != b2.index
    ensures ApplyLinearImpulses(lv, b1, b2, lambda)[b1.index]
            == lv[b1.index].Add(LinearChange(b1, LinearImpulse1(lambda)))
    ensures ApplyLinearImpulses(lv, b1, b2, lambda)[b2.index]
            == lv[b2.index].Add(LinearChange(b2, LinearImpulse2(lambda)))
    ensures ApplyAngularImpulses(av, b1, b2, lambda)[b1.index]
            == av[b1.index].Add(AngularChange(b1, AngularImpulse1(b1, lambda)))
    ensures ApplyAngularImpulses(av, b1, b2, lambda)[b2.index]
            == av[b2.index].Add(AngularChange(b2, AngularImpulse2(b2, lambda)))
  {
  }

  lemma AngularMassTermResponse(b: ConstrainedBody, lambda: Vector3)
    ensures AngularMassTerm(b).Apply(lambda)
            == b.rWorld.Cross(b.inverseInertia.Apply(lambda.Cross(b.rWorld)))
  {
    var u := SkewSymmetricMatrixForCrossProduct(b.rWorld);
    ApplyMul(u.Mul(b.inverseInertia), u.Transpose(), lambda);
    ApplyMul(u, b.inverseInertia, u.Transpose().Apply(lambda));
    SkewSymmetricMatrixIsCrossProduct(b.rWorld, lambda);
    SkewSymmetricMatrixIsCrossProduct(b.rWorld, b.inverseInertia.Apply(lambda.Cross(b.rWorld)));
  }

  /** The velocity change body 1 gives the anchor point, negated, for an
      abstract angular response `u` standing for I1^-1 (lambda x r1). */
  lemma Body1AnchorResponse(b1: ConstrainedBody, lambda: Vector3, u: Vector3)
    ensures var dv := if b1.motionEnabled then LinearImpulse1(lambda).Scale(b1.inverseMass) else Zero;
            var dw := if b1.motionEnabled then u else Zero;
            Zero.Sub(dv).Sub(dw.Cross(b1.rWorld))
            == if b1.motionEnabled then lambda.Scale(b1.inverseMass).Add(b1.rWorld.Cross(u)) else Zero
  {
  }

  /** The velocity change body 2 gives the anchor point, for an abstract
      angular response `u` standing for I2^-1 (lambda x r2). */
  lemma Body2AnchorResponse(b2: ConstrainedBody, lambda: Vector3, u: Vector3)
    ensures var dv := if b2.motionEnabled then LinearImpulse2(lambda).Scale(b2.inverseMass) else Zero;
            var dw := if b2.motionEnabled then u.Neg() else Zero;
            dv.Add(dw.Cross(b2.rWorld))
            == if b2.motionEnabled then lambda.Scale(b2.inverseMass).Add(b2.rWorld.Cross(u)) else Zero
  {
  }

  lemma RelativeVelocitySplits(v1: Vector3, w1: Vector3, v2: Vector3, w2: Vector3, r1: Vector3, r2: Vector3)
    ensures RelativeVelocity(v1, w1, v2, w2, r1, r2)
            == v2.Add(w2.Cross(r2)).Add(Zero.Sub(v1).Sub(w1.Cross(r1)))
  {
  }

  /** K * lambda, term by term: the diagonal part and the angular part of
      each motion-enabled body. */
  lemma MassMatrixApply(b1: ConstrainedBody, b2: ConstrainedBody, lambda: Vector3)
    ensures MassMatrix(b1, b2).Apply(lambda)
            == lambda.Scale(InverseMassBodies(b1, b2))
                 .Add(if b1.motionEnabled then AngularMassTerm(b1).Apply(lambda) else Zero)
                 .Add(if b2.motionEnabled then AngularMassTerm(b2).Apply(lambda) else Zero)
  {
    var k := Diagonal(InverseMassBodies(b1, b2));
    var k1 := if b1.motionEnabled then k.Add(AngularMassTerm(b1)) else k;
    if b1.motionEnabled { ApplyAdd(k, AngularMassTerm(b1), lambda); }
    if b2.motionEnabled { ApplyAdd(k1, AngularMassTerm(b2), lambda); }
  }

  /** K is the response matrix of the joint: the relative anchor velocity
      that the impulse of multiplier `lambda` produces is K * lambda. This is
      why only motion-enabled bodies contribute to K. */
  lemma MassMatrixIsResponse(b1: ConstrainedBody, b2: ConstrainedBody, lambda: Vector3)
    ensures RelativeVelocity(LinearChange(b1, LinearImpulse1(lambda)), AngularChange(b1, AngularImpulse1(b1, lambda)),
                             LinearChange(b2, LinearImpulse2(lambda)), AngularChange(b2, AngularImpulse2(b2, lambda)),
                             b1.rWorld, b2.rWorld)
            == MassMatrix(b1, b2).Apply(lambda)
  {
    var (r1, r2) := (b1.rWorld, b2.rWorld);
    var u1 := b1.inverseInertia.Apply(lambda.Cross(r1));
    var u2 := b2.inverseInertia.Apply(lambda.Cross(r2));
    ApplyNeg(b2.inverseInertia, lambda.Cross(r2));
    assert AngularChange(b1, AngularImpulse1(b1, lambda)) == if b1.motionEnabled then u1 else Zero;
    assert AngularChange(b2, AngularImpulse2(b2, lambda)) == if b2.motionEnabled then u2.Neg() else Zero;
    Body1AnchorResponse(b1, lambda, u1);
    Body2AnchorResponse(b2, lambda, u2);
    RelativeVelocitySplits(LinearChange(b1, LinearImpulse1(lambda)), AngularChange(b1, AngularImpulse1(b1, lambda)),
                           LinearChange(b2, LinearImpulse2(lambda)), AngularChange(b2, AngularImpulse2(b2, lambda)),
                           r1, r2);
    AngularMassTermResponse(b1, lambda);
    AngularMassTermResponse(b2, lambda);
    MassMatrixApply(b1, b2, lambda);
    var d1 := if b1.motionEnabled then lambda.Scale(b1.inverseMass).Add(r1.Cross(u1)) else Zero;
    var d2 := if b2.motionEnabled then lambda.Scale(b2.inverseMass).Add(r2.Cross(u2)) else Zero;
    SumOfResponses(lambda, b1.motionEnabled, b1.inverseMass, r1.Cross(u1),
                   b2.motionEnabled, b2.inverseMass, r2.Cross(u2));
  }

  /** The vector bookkeeping that closes MassMatrixIsResponse, over abstract vectors. */
  lemma SumOfResponses(lambda: Vector3, e1: bool, m1: real, t1: Vector3, e2: bool, m2: real, t2: Vector3)
    ensures var d1 := if e1 then lambda.Scale(m1).Add(t1) else Zero;
            var d2 := if e2 then lambda.Scale(m2).Add(t2) else Zero;
            var m := if e1 then 0.0 + m1 else 0.0;
            var s := if e2 then m + m2 else m;
            d2.Add(d1) == lambda.Scale(s).Add(if e1 then t1 else Zero).Add(if e2 then t2 else Zero)
  {
  }

  /** With distinct indices, applying the impulse of multiplier `lambda` to the
      step's velocities raises the constraint velocity J v by exactly K * lambda. */
  lemma ImpulseResponse(lv: seq<Vector3>, av: seq<Vector3>, b1: ConstrainedBody,
                        b2: ConstrainedBody, lambda: Vector3)
    requires Indexes(b1, b2, |lv|) && Indexes(b1, b2, |av|) && b1.index != b2.index
    ensures ConstraintVelocity(ApplyLinearImpulses(lv, b1, b2, lambda), ApplyAngularImpulses(av, b1, b2, lambda), b1, b2)
            == ConstraintVelocity(lv, av, b1, b2).Add(MassMatrix(b1, b2).Apply(lambda))
  {
    var (i1, i2) := (b1.index, b2.index);
    var dv1, dw1 := LinearChange(b1, LinearImpulse1(lambda)), AngularChange(b1, AngularImpulse1(b1, lambda));
    var dv2, dw2 := LinearChange(b2, LinearImpulse2(lambda)), AngularChange(b2, AngularImpulse2(b2, lambda));
    var lv', av' := ApplyLinearImpulses(lv, b1, b2, lambda), ApplyAngularImpulses(av, b1, b2, lambda);
    ImpulseAtJointBodies(lv, av, b1, b2, lambda);
    MassMatrixIsResponse(b1, b2, lambda);
    RelativeVelocityIsLinear(lv[i1], av[i1], lv[i2], av[i2], dv1, dw1, dv2, dw2, b1.rWorld, b2.rWorld);
    calc {
      ConstraintVelocity(lv', av', b1, b2);
      RelativeVelocity(lv'[i1], av'[i1], lv'[i2], av'[i2], b1.rWorld, b2.rWorld);
      RelativeVelocity(lv[i1].Add(dv1), av[i1].Add(dw1), lv[i2].Add(dv2), av[i2].Add(dw2), b1.rWorld, b2.rWorld);
      ConstraintVelocity(lv, av, b1, b2).Add(RelativeVelocity(dv1, dw1, dv2, dw2, b1.rWorld, b2.rWorld));
    }
  }

  lemma RelativeVelocityIsLinear(v1: Vector3, w1: Vector3, v2: Vector3, w2: Vector3,
                                 dv1: Vector3, dw1: Vector3, dv2: Vector3, dw2: Vector3,
                                 r1: Vector3, r2: Vector3)
    ensures RelativeVelocity(v1.Add(dv1), w1.Add(dw1), v2.Add(dv2), w2.Add(dw2), r1, r2)
            == RelativeVelocity(v1, w1, v2, w2, r1, r2).Add(RelativeVelocity(dv1, dw1, dv2, dw2, r1, r2))
  {
  }

  /** One velocity iteration solves the joint's velocity constraint exactly:
      when `math.inverse` inverts K, the new velocities satisfy J v + b = 0. */
  lemma VelocityIterationSatisfiesConstraint(math: MathKernel, lv: seq<Vector3>, av: seq<Vector3>,
                                             b1: ConstrainedBody, b2: ConstrainedBody, bias: Vector3)
    requires Indexes(b1, b2, |lv|) && Indexes(b1, b2, |av|) && b1.index != b2.index
    requires b1.motionEnabled || b2.motionEnabled
    requires MassMatrix(b1, b2).Mul(math.inverse(MassMatrix(b1, b2))) == Identity
    ensures var deltaLambda := DeltaLambda(InverseMassMatrix(math, b1, b2), lv, av, b1, b2, bias);
            ConstraintVelocity(ApplyLinearImpulses(lv, b1, b2, deltaLambda),
                               ApplyAngularImpulses(av, b1, b2, deltaLambda), b1, b2)
            == bias.Neg()
  {
    var k := MassMatrix(b1, b2);
    var y := ConstraintVelocity(lv, av, b1, b2).Neg().Sub(bias);
    var deltaLambda := DeltaLambda(InverseMassMatrix(math, b1, b2), lv, av, b1, b2, bias);
    ImpulseResponse(lv, av, b1, b2, deltaLambda);
    ApplyMul(k, math.inverse(k), y);
    assert k.Apply(deltaLambda) == y;
  }

  /** When neither body can move the joint is inert: the increment is zero and
      no velocity entry changes. */
  lemma ImmovablePairIsInert(math: MathKernel, lv: seq<Vector3>, av: seq<Vector3>,
                             b1: ConstrainedBody, b2: ConstrainedBody, bias: Vector3)
    requires Indexes(b1, b2, |lv|) && Indexes(b1, b2, |av|)
    requires !b1.motionEnabled && !b2.motionEnabled
    ensures DeltaLambda(InverseMassMatrix(math, b1, b2), lv, av, b1, b2, bias) == Zero
    ensures forall lambda :: ApplyLinearImpulses(lv, b1, b2, lambda) == lv
    ensures forall lambda :: ApplyAngularImpulses(av, b1, b2, lambda) == av
  {
  }

  /** A body whose motion is disabled contributes to K as a body of zero
      inverse mass and zero inverse inertia would: as if infinitely heavy. */
  lemma DisabledBodyActsAsInfiniteMass(b1: ConstrainedBody, b2: ConstrainedBody)
    ensures !b1.motionEnabled ==>
              MassMatrix(b1, b2)
              == MassMatrix(b1.(motionEnabled := true, inverseMass := 0.0, inverseInertia := ZeroMatrix), b2)
    ensures !b2.motionEnabled ==>
              MassMatrix(b1, b2)
              == MassMatrix(b1, b2.(motionEnabled := true, inverseMass := 0.0, inverseInertia := ZeroMatrix))
  {
    if !b1.motionEnabled {
      var heavy1 := b1.(motionEnabled := true, inverseMass := 0.0, inverseInertia := ZeroMatrix);
      ZeroInertiaHasNoAngularTerm(heavy1);
      var k := Diagonal(InverseMassBodies(heavy1, b2));
      assert k == Diagonal(InverseMassBodies(b1, b2));
      AddZeroMatrix(k);
    }
    if !b2.motionEnabled {
      var heavy2 := b2.(motionEnabled := true, inverseMass := 0.0, inverseInertia := ZeroMatrix);
      ZeroInertiaHasNoAngularTerm(heavy2);
      var k := Diagonal(InverseMassBodies(b1, heavy2));
      var k1 := if b1.motionEnabled then k.Add(AngularMassTerm(b1)) else k;
      assert k == Diagonal(InverseMassBodies(b1, b2));
      AddZeroMatrix(k1);
    }
  }

  lemma ZeroInertiaHasNoAngularTerm(b: ConstrainedBody)
    requires b.inverseInertia == ZeroMatrix
    ensures AngularMassTerm(b) == ZeroMatrix
  {
    var u := SkewSymmetricMatrixForCrossProduct(b.rWorld);
    assert u.Mul(ZeroMatrix) == ZeroMatrix;
  }

  /** With both anchors at the body centres, K is the sum of the inverse
      masses of the motion-enabled bodies times the identity. */
  lemma MassMatrixWithCentredAnchors(b1: ConstrainedBody, b2: ConstrainedBody)
    requires b1.rWorld == Zero && b2.rWorld == Zero
    ensures MassMatrix(b1, b2)
            == Diagonal((if b1.motionEnabled then b1.inverseMass else 0.0)
                        + (if b2.motionEnabled then b2.inverseMass else 0.0))
  {
  }

  /** K is symmetric when the inverse inertia tensors are. */
  lemma MassMatrixIsSymmetric(b1: ConstrainedBody, b2: ConstrainedBody)
    requires b1.inverseInertia.Transpose() == b1.inverseInertia
    requires b2.inverseInertia.Transpose() == b2.inverseInertia
    ensures MassMatrix(b1, b2).Transpose() == MassMatrix(b1, b2)
  {
    AngularMassTermIsSymmetric(b1);
    AngularMassTermIsSymmetric(b2);
    var k := Diagonal(InverseMassBodies(b1, b2));
    var k1 := if b1.motionEnabled then k.Add(AngularMassTerm(b1)) else k;
    assert k1.Transpose() == k1;
  }

  lemma AngularMassTermIsSymmetric(b: ConstrainedBody)
    requires b.inverseInertia.Transpose() == b.inverseInertia
    ensures AngularMassTerm(b).Transpose() == AngularMassTerm(b)
  {
    CongruenceIsSymmetric(SkewSymmetricMatrixForCrossProduct(b.rWorld), b.inverseInertia);
  }

  /** Under the Baumgarte technique, to first order: for a velocity satisfying
      J v + b = 0, the predicted error C + dt * J v after one time step is
      (1 - BETA) * C. The non-linear change of the anchors as the bodies
      rotate is not accounted for. */
  lemma BaumgarteBiasShrinksError(timeStep: real, x1: Vector3, r1: Vector3, x2: Vector3, r2: Vector3,
                                  jv: Vector3)
    requires timeStep > 0.0
    requires jv == BiasVector(BaumgarteJoints, timeStep, x1, r1, x2, r2).Neg()
    ensures var c := AnchorSeparation(x1, r1, x2, r2);
            c.Add(jv.Scale(timeStep)) == c.Scale(1.0 - BETA)
  {
    var c := AnchorSeparation(x1, r1, x2, r2);
    var f := BETA / timeStep;
    assert timeStep * f == BETA;
    assert timeStep * -(f * c.x) == -(BETA * c.x) by { MulAssoc(timeStep, f, c.x); }
    assert timeStep * -(f * c.y) == -(BETA * c.y) by { MulAssoc(timeStep, f, c.y); }
    assert timeStep * -(f * c.z) == -(BETA * c.z) by { MulAssoc(timeStep, f, c.z); }
  }

  /** The position pass moves each body by the pseudo-velocity of the
      multiplier lambda = K^-1 (-C); when `math.inverse` inverts K, that
      displacement cancels the error C to first order: J (dx, dw) = -C. */
  lemma PseudoVelocityCancelsPositionError(math: MathKernel, b1: ConstrainedBody, b2: ConstrainedBody,
                                           c: Vector3)
    requires b1.motionEnabled || b2.motionEnabled
    requires MassMatrix(b1, b2).Mul(math.inverse(MassMatrix(b1, b2))) == Identity
    ensures var lambda := InverseMassMatrix(math, b1, b2).Apply(c.Neg());
            RelativeVelocity(LinearChange(b1, LinearImpulse1(lambda)), AngularChange(b1, AngularImpulse1(b1, lambda)),
                             LinearChange(b2, LinearImpulse2(lambda)), AngularChange(b2, AngularImpulse2(b2, lambda)),
                             b1.rWorld, b2.rWorld)
            == c.Neg()
  {
    var k := MassMatrix(b1, b2);
    var lambda := InverseMassMatrix(math, b1, b2).Apply(c.Neg());
    MassMatrixIsResponse(b1, b2, lambda);
    ApplyMul(k, math.inverse(k), c.Neg());
  }
}
