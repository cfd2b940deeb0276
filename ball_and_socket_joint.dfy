/**
 The ball-and-socket joint and the per-step data the constraint solver
 shares with it. The joint keeps the anchor points of two rigid bodies
 together; each step the solver calls InitBeforeSolve, then Warmstart, then
 SolveVelocityConstraint a number of times, then SolvePositionConstraint a
 number of times. The last three update the shared step arrays in place.
 */
module BallAndSocket {
  import opened Mathematics
  import opened JointDynamics

  /** What the joint reads of a rigid body: its transform, inverse mass,
      motion-enabled flag and world-space inverse inertia tensor. */
  class RigidBody {
    var position: Vector3
    var orientation: Quaternion
    var massInverse: real
    var motionEnabled: bool
    var inertiaTensorInverseWorld: Matrix3x3

    constructor (position: Vector3, orientation: Quaternion, massInverse: real, motionEnabled: bool,
                 inertiaTensorInverseWorld: Matrix3x3)
      ensures this.position == position && this.orientation == orientation
      ensures this.massInverse == massInverse && this.motionEnabled == motionEnabled
      ensures this.inertiaTensorInverseWorld == inertiaTensorInverseWorld
    {
      this.position := position;
      this.orientation := orientation;
      this.massInverse := massInverse;
      this.motionEnabled := motionEnabled;
      this.inertiaTensorInverseWorld := inertiaTensorInverseWorld;
    }
  }

  /** The solver's per-step data: the time step, the velocity, position and
      orientation arrays of the constrained bodies, the index of each body in
      those arrays and whether warm starting is active. */
  class ConstraintSolverData {
    const timeStep: real
    const linearVelocities: array<Vector3>
    const angularVelocities: array<Vector3>
    const positions: array<Vector3>
    const orientations: array<Quaternion>
    const mapBodyToConstrainedVelocityIndex: map<RigidBody, nat>
    const isWarmStartingActive: bool

    /** The three vector arrays are distinct, and every body's index is in range of all four arrays. */
    ghost predicate Valid()
      reads this
    {
      && linearVelocities != angularVelocities
      && positions != linearVelocities
      && positions != angularVelocities
      && forall b :: b in mapBodyToConstrainedVelocityIndex ==>
           var i := mapBodyToConstrainedVelocityIndex[b];
           i < linearVelocities.Length && i < angularVelocities.Length
           && i < positions.Length && i < orientations.Length
    }

    constructor (timeStep: real, linearVelocities: array<Vector3>, angularVelocities: array<Vector3>,
                 positions: array<Vector3>, orientations: array<Quaternion>,
                 mapBodyToConstrainedVelocityIndex: map<RigidBody, nat>, isWarmStartingActive: bool)
      ensures this.timeStep == timeStep && this.isWarmStartingActive == isWarmStartingActive
      ensures this.linearVelocities == linearVelocities && this.angularVelocities == angularVelocities
      ensures this.positions == positions && this.orientations == orientations
      ensures this.mapBodyToConstrainedVelocityIndex == mapBodyToConstrainedVelocityIndex
    {
      this.timeStep := timeStep;
      this.linearVelocities := linearVelocities;
      this.angularVelocities := angularVelocities;
      this.positions := positions;
      this.orientations := orientations;
      this.mapBodyToConstrainedVelocityIndex := mapBodyToConstrainedVelocityIndex;
      this.isWarmStartingActive := isWarmStartingActive;
    }
  }

  class BallAndSocketJoint {
    const body1: RigidBody
    const body2: RigidBody
    const positionCorrectionTechnique: JointsPositionCorrectionTechnique
    /** The anchor point in each body's local space. */
    const localAnchorPointBody1: Vector3
    const localAnchorPointBody2: Vector3

    /** The accumulated impulse (the Lagrange multiplier), kept across steps for warm starting. */
    var impulse: Vector3
    var inverseMassMatrix: Matrix3x3
    var biasVector: Vector3
    /** Vectors from each body's centre to the anchor point, in world space. */
    var r1World: Vector3
    var r2World: Vector3
    /** The bodies' world-space inverse inertia tensors. */
    var i1: Matrix3x3
    var i2: Matrix3x3
    /** The bodies' indices in the step arrays. */
    var indexBody1: nat
    var indexBody2: nat

    constructor (body1: RigidBody, body2: RigidBody, localAnchorPointBody1: Vector3,
                 localAnchorPointBody2: Vector3, positionCorrectionTechnique: JointsPositionCorrectionTechnique)
      ensures this.body1 == body1 && this.body2 == body2
      ensures this.localAnchorPointBody1 == localAnchorPointBody1
      ensures this.localAnchorPointBody2 == localAnchorPointBody2
      ensures this.positionCorrectionTechnique == positionCorrectionTechnique
      ensures impulse == Zero
    {
      this.body1 := body1;
      this.body2 := body2;
      this.localAnchorPointBody1 := localAnchorPointBody1;
      this.localAnchorPointBody2 := localAnchorPointBody2;
      this.positionCorrectionTechnique := positionCorrectionTechnique;
      impulse := Zero;
      inverseMassMatrix := ZeroMatrix;
      biasVector := Zero;
      r1World, r2World := Zero, Zero;
      i1, i2 := ZeroMatrix, ZeroMatrix;
      indexBody1, indexBody2 := 0, 0;
    }

    /** Body 1 and body 2 as the joint's cached fields and the bodies' current state see them. */
    function Body1(): ConstrainedBody
      reads this, body1
    {
      ConstrainedBody(indexBody1, body1.massInverse, body1.motionEnabled, r1World, i1)
    }

    function Body2(): ConstrainedBody
      reads this, body2
    {
      ConstrainedBody(indexBody2, body2.massInverse, body2.motionEnabled, r2World, i2)
    }

    /** Both body indices are in range of all the step arrays of `data`. */
    ghost predicate IndicesIn(data: ConstraintSolverData)
      reads this, data
    {
      && indexBody1 < data.linearVelocities.Length && indexBody2 < data.linearVelocities.Length
      && indexBody1 < data.angularVelocities.Length && indexBody2 < data.angularVelocities.Length
      && indexBody1 < data.positions.Length && indexBody2 < data.positions.Length
      && indexBody1 < data.orientations.Length && indexBody2 < data.orientations.Length
    }

    /** The part of the set-up that initBeforeSolve and solvePositionConstraint
        share: the inverse inertia tensors, the world-space anchors for
        body orientations `q1` and `q2`, and K^-1 over the motion-enabled
        bodies (zero when neither can move). */
    method SetUpJacobianTerms(q1: Quaternion, q2: Quaternion, math: MathKernel)
      modifies this`i1, this`i2, this`r1World, this`r2World, this`inverseMassMatrix
      ensures i1 == body1.inertiaTensorInverseWorld && i2 == body2.inertiaTensorInverseWorld
      ensures r1World == math.rotate(q1, localAnchorPointBody1)
      ensures r2World == math.rotate(q2, localAnchorPointBody2)
      ensures inverseMassMatrix == InverseMassMatrix(math, Body1(), Body2())
    {
      i1 := body1.inertiaTensorInverseWorld;
      i2 := body2.inertiaTensorInverseWorld;

      r1World := math.rotate(q1, localAnchorPointBody1);
      r2World := math.rotate(q2, localAnchorPointBody2);

      // K = J M^-1 J^T, over the motion-enabled bodies only
      var massMatrix := MassMatrix(Body1(), Body2());
      inverseMassMatrix := ZeroMatrix;
      if body1.motionEnabled || body2.motionEnabled {
        inverseMassMatrix := math.inverse(massMatrix);
      }
    }

    /** Prepares the joint for the step: body indices, world anchors, inertia
        tensors, K^-1, the bias and the warm-start impulse. */
    method InitBeforeSolve(data: ConstraintSolverData, math: MathKernel)
      requires body1 in data.mapBodyToConstrainedVelocityIndex
      requires body2 in data.mapBodyToConstrainedVelocityIndex
      requires positionCorrectionTechnique == BaumgarteJoints ==> data.timeStep != 0.0
      modifies this
      ensures indexBody1 == data.mapBodyToConstrainedVelocityIndex[body1]
      ensures indexBody2 == data.mapBodyToConstrainedVelocityIndex[body2]
      ensures data.Valid() ==> IndicesIn(data)
      ensures i1 == body1.inertiaTensorInverseWorld && i2 == body2.inertiaTensorInverseWorld
      ensures r1World == math.rotate(body1.orientation, localAnchorPointBody1)
      ensures r2World == math.rotate(body2.orientation, localAnchorPointBody2)
      ensures inverseMassMatrix == InverseMassMatrix(math, Body1(), Body2())
      ensures !body1.motionEnabled && !body2.motionEnabled ==> inverseMassMatrix == ZeroMatrix
      ensures biasVector == BiasVector(positionCorrectionTechnique, data.timeStep,
                                       body1.position, r1World, body2.position, r2World)
      ensures positionCorrectionTechnique != BaumgarteJoints ==> biasVector == Zero
      ensures impulse == if data.isWarmStartingActive then old(impulse) else Zero
    {
      indexBody1 := data.mapBodyToConstrainedVelocityIndex[body1];
      indexBody2 := data.mapBodyToConstrainedVelocityIndex[body2];

      var x1 := body1.position;
      var x2 := body2.position;
      var orientationBody1 := body1.orientation;
      var orientationBody2 := body2.orientation;

      SetUpJacobianTerms(orientationBody1, orientationBody2, math);

      biasVector := Zero;
      if positionCorrectionTechnique == BaumgarteJoints {
        var biasFactor := BETA / data.timeStep;
        biasVector := x2.Add(r2World).Sub(x1).Sub(r1World).Scale(biasFactor);
      }

      if !data.isWarmStartingActive {
        impulse := Zero;
      }
    }

    /** Applies the impulse accumulated in the previous step to the velocities
        of the motion-enabled bodies: -impulse to body 1, +impulse to body 2. */
    method Warmstart(data: ConstraintSolverData)
      requires data.Valid() && IndicesIn(data)
      modifies data.linearVelocities, data.angularVelocities
      ensures data.linearVelocities[..]
              == ApplyLinearImpulses(old(data.linearVelocities[..]), Body1(), Body2(), impulse)
      ensures data.angularVelocities[..]
              == ApplyAngularImpulses(old(data.angularVelocities[..]), Body1(), Body2(), impulse)
    {
      var linearVelocities, angularVelocities := data.linearVelocities, data.angularVelocities;
      ghost var lv, av := linearVelocities[..], angularVelocities[..];

      var inverseMassBody1 := body1.massInverse;
      var inverseMassBody2 := body2.massInverse;

      if body1.motionEnabled {
        var linearImpulseBody1 := impulse.Neg();
        var angularImpulseBody1 := impulse.Cross(r1World);
        linearVelocities[indexBody1] := linearVelocities[indexBody1].Add(linearImpulseBody1.Scale(inverseMassBody1));
        angularVelocities[indexBody1] := angularVelocities[indexBody1].Add(i1.Apply(angularImpulseBody1));
      }
      assert linearVelocities[..]
             == Kick(lv, body1.motionEnabled, indexBody1, LinearImpulse1(impulse).Scale(inverseMassBody1));
      assert angularVelocities[..]
             == Kick(av, body1.motionEnabled, indexBody1, i1.Apply(AngularImpulse1(Body1(), impulse)));
      if body2.motionEnabled {
        var linearImpulseBody2 := impulse;
        var angularImpulseBody2 := impulse.Cross(r2World).Neg();
        linearVelocities[indexBody2] := linearVelocities[indexBody2].Add(linearImpulseBody2.Scale(inverseMassBody2));
        angularVelocities[indexBody2] := angularVelocities[indexBody2].Add(i2.Apply(angularImpulseBody2));
      }
    }

    /** One velocity iteration: computes deltaLambda = K^-1 (-J v - b), adds it
        to the accumulated impulse and applies it to the motion-enabled bodies. */
    method SolveVelocityConstraint(data: ConstraintSolverData)
      requires data.Valid() && IndicesIn(data)
      modifies this`impulse, data.linearVelocities, data.angularVelocities
      ensures var deltaLambda := DeltaLambda(inverseMassMatrix, old(data.linearVelocities[..]),
                                             old(data.angularVelocities[..]), Body1(), Body2(), biasVector);
              && impulse == old(impulse).Add(deltaLambda)
              && data.linearVelocities[..]
                 == ApplyLinearImpulses(old(data.linearVelocities[..]), Body1(), Body2(), deltaLambda)
              && data.angularVelocities[..]
                 == ApplyAngularImpulses(old(data.angularVelocities[..]), Body1(), Body2(), deltaLambda)
    {
      var linearVelocities, angularVelocities := data.linearVelocities, data.angularVelocities;
      ghost var lv, av := linearVelocities[..], angularVelocities[..];

      var v1 := linearVelocities[indexBody1];
      var v2 := linearVelocities[indexBody2];
      var w1 := angularVelocities[indexBody1];
      var w2 := angularVelocities[indexBody2];

      var inverseMassBody1 := body1.massInverse;
      var inverseMassBody2 := body2.massInverse;

      var jv := v2.Add(w2.Cross(r2World)).Sub(v1).Sub(w1.Cross(r1World));

      var deltaLambda := inverseMassMatrix.Apply(jv.Neg().Sub(biasVector));
      assert deltaLambda == DeltaLambda(inverseMassMatrix, lv, av, Body1(), Body2(), biasVector);
      impulse := impulse.Add(deltaLambda);

      if body1.motionEnabled {
        var linearImpulseBody1 := deltaLambda.Neg();
        var angularImpulseBody1 := deltaLambda.Cross(r1World);
        linearVelocities[indexBody1] := linearVelocities[indexBody1].Add(linearImpulseBody1.Scale(inverseMassBody1));
        angularVelocities[indexBody1] := angularVelocities[indexBody1].Add(i1.Apply(angularImpulseBody1));
      }
      assert linearVelocities[..]
             == Kick(lv, body1.motionEnabled, indexBody1, LinearImpulse1(deltaLambda).Scale(inverseMassBody1));
      assert angularVelocities[..]
             == Kick(av, body1.motionEnabled, indexBody1, i1.Apply(AngularImpulse1(Body1(), deltaLambda)));
      if body2.motionEnabled {
        var linearImpulseBody2 := deltaLambda;
        var angularImpulseBody2 := deltaLambda.Cross(r2World).Neg();
        linearVelocities[indexBody2] := linearVelocities[indexBody2].Add(linearImpulseBody2.Scale(inverseMassBody2));
        angularVelocities[indexBody2] := angularVelocities[indexBody2].Add(i2.Apply(angularImpulseBody2));
      }
    }

    /** The non-linear Gauss-Seidel position pass: does nothing under any other
        technique; otherwise recomputes the anchors and K^-1 from the current
        orientations, computes lambda = K^-1 (-C) and moves the motion-enabled
        bodies' positions and orientations by the resulting pseudo-velocities. */
    method SolvePositionConstraint(data: ConstraintSolverData, math: MathKernel)
      requires data.Valid() && IndicesIn(data)
      modifies this`i1, this`i2, this`r1World, this`r2World, this`inverseMassMatrix
      modifies data.positions, data.orientations
      ensures positionCorrectionTechnique != NonLinearGaussSeidel ==>
                unchanged(this) && unchanged(data.positions) && unchanged(data.orientations)
      ensures positionCorrectionTechnique == NonLinearGaussSeidel ==>
                i1 == body1.inertiaTensorInverseWorld && i2 == body2.inertiaTensorInverseWorld
      ensures positionCorrectionTechnique == NonLinearGaussSeidel ==>
                r1World == math.rotate(old(data.orientations[indexBody1]), localAnchorPointBody1)
                && r2World == math.rotate(old(data.orientations[indexBody2]), localAnchorPointBody2)
      ensures positionCorrectionTechnique == NonLinearGaussSeidel ==>
                inverseMassMatrix == InverseMassMatrix(math, Body1(), Body2())
      ensures positionCorrectionTechnique == NonLinearGaussSeidel ==>
                var lambda := inverseMassMatrix.Apply(PositionError(old(data.positions[..]), Body1(), Body2()).Neg());
                && data.positions[..] == ApplyLinearImpulses(old(data.positions[..]), Body1(), Body2(), lambda)
                && data.orientations[..]
                   == ApplyOrientationCorrections(old(data.orientations[..]), Body1(), Body2(), lambda, math.normalize)
    {
      if positionCorrectionTechnique != NonLinearGaussSeidel {
        return;
      }

      var positions, orientations := data.positions, data.orientations;
      SetUpJacobianTerms(orientations[indexBody1], orientations[indexBody2], math);

      var constraintError := positions[indexBody2].Add(r2World).Sub(positions[indexBody1]).Sub(r1World);
      var lambda := inverseMassMatrix.Apply(constraintError.Neg());
      assert lambda == inverseMassMatrix.Apply(PositionError(positions[..], Body1(), Body2()).Neg());

      ApplyPositionCorrections(data, lambda, math.normalize);
    }

    /** The second half of the position pass: moves each motion-enabled body by
        the pseudo-velocities of the pseudo-impulse with multiplier `lambda`,
        body 1 first. */
    method ApplyPositionCorrections(data: ConstraintSolverData, lambda: Vector3, normalize: Quaternion -> Quaternion)
      requires data.Valid() && IndicesIn(data)
      modifies data.positions, data.orientations
      ensures data.positions[..] == ApplyLinearImpulses(old(data.positions[..]), Body1(), Body2(), lambda)
      ensures data.orientations[..]
              == ApplyOrientationCorrections(old(data.orientations[..]), Body1(), Body2(), lambda, normalize)
    {
      var positions, orientations := data.positions, data.orientations;
      ghost var xs, qs := positions[..], orientations[..];

      var inverseMassBody1 := body1.massInverse;
      var inverseMassBody2 := body2.massInverse;

      if body1.motionEnabled {
        var linearImpulseBody1 := lambda.Neg();
        var angularImpulseBody1 := lambda.Cross(r1World);
        var v1 := linearImpulseBody1.Scale(inverseMassBody1);
        var w1 := i1.Apply(angularImpulseBody1);
        positions[indexBody1] := positions[indexBody1].Add(v1);
        orientations[indexBody1] := normalize(IntegrateOrientation(orientations[indexBody1], w1));
      }
      assert positions[..] == Kick(xs, body1.motionEnabled, indexBody1, LinearImpulse1(lambda).Scale(inverseMassBody1));
      assert orientations[..]
             == Turn(qs, body1.motionEnabled, indexBody1, i1.Apply(AngularImpulse1(Body1(), lambda)), normalize);
      if body2.motionEnabled {
        var linearImpulseBody2 := lambda;
        var angularImpulseBody2 := lambda.Cross(r2World).Neg();
        var v2 := linearImpulseBody2.Scale(inverseMassBody2);
        var w2 := i2.Apply(angularImpulseBody2);
        positions[indexBody2] := positions[indexBody2].Add(v2);
        orientations[indexBody2] := normalize(IntegrateOrientation(orientations[indexBody2], w2));
      }
    }
  }
}
